/** The in-memory object store: bytes are copied in and copied out. */
module Store {
  import opened Domain

  class MemoryStore {
    const env: Env
    var objects: map<string, string>

    constructor (env: Env)
      ensures this.env == env && objects == map[]
    {
      this.env := env;
      objects := map[];
    }

    method Put(key: string, data: array<char>) returns (r: Result<Digest>)
      modifies this
      ensures key == "" || data.Length == 0 ==> r == Err(EmptyObject) && objects == old(objects)
      ensures key != "" && data.Length > 0 ==> r == Ok(env.sha(data[..])) && objects == old(objects)[key := data[..]]
    {
      if key == "" || data.Length == 0 {
        return Err(EmptyObject);
      }
      objects := objects[key := data[..]];
      return Ok(env.sha(data[..]));
    }

    /** The result is a fresh buffer: writing to it cannot reach the store. */
    method Get(key: string) returns (r: Result<array<char>>)
      ensures key !in objects ==> r == Err(ObjectMissing)
      ensures key in objects ==> r.Ok? && fresh(r.value) && r.value[..] == objects[key]
    {
      if key !in objects {
        return Err(ObjectMissing);
      }
      var data := objects[key];
      var copy := new char[|data|](i requires 0 <= i < |data| => data[i]);
      assert copy[..] == data;
      return Ok(copy);
    }
  }
}
