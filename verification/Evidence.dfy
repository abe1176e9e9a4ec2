/** What a signature's evidence hash fixes, and what it does not. */
module Evidence {
  import opened Domain
  import opened Service
  import opened ServiceInvariant

  /** The two inputs are the same whenever their digests are. */
  predicate Distinguished(env: Env, x: string, y: string) { env.sha(x) == env.sha(y) ==> x == y }

  /** The content hash and the contractor have fixed widths, so equal evidence fixes them, and what follows as a
      whole. */
  lemma PepFixesContent(env: Env, d: Document, p: string, ip: string, agent: string, at: nat,
                        f: Document, q: string, ip': string, agent': string, at': nat)
    requires |d.contentHash| == |f.contentHash| && |p| == |q|
    requires Distinguished(env, PepText(env, d, p, ip, agent, at), PepText(env, f, q, ip', agent', at'))
    requires PepEvidence(env, d, p, ip, agent, at) == PepEvidence(env, f, q, ip', agent', at')
    ensures d.contentHash == f.contentHash && p == q
    ensures d.agreementVersion + ip + agent + env.render(at) == f.agreementVersion + ip' + agent' + env.render(at')
  {
    PepParts(env, d, p, ip, agent, at);
    PepParts(env, f, q, ip', agent', at');
  }

  lemma PepParts(env: Env, d: Document, p: string, ip: string, agent: string, at: nat)
    ensures var t, n := PepText(env, d, p, ip, agent, at), |d.contentHash|;
            && t[..n] == d.contentHash && t[n..n + |p|] == p
            && t[n + |p|..] == d.agreementVersion + ip + agent + env.render(at)
  {
    assert PepText(env, d, p, ip, agent, at) == d.contentHash + p + (d.agreementVersion + ip + agent + env.render(at));
  }

  /** After any run, signatures with equal evidence are over the same content and by the same contractor. */
  lemma {:induction false} EvidenceFixesContent(env: Env, ops: seq<Op>, a: string, ip: string, agent: string, at: nat,
                                                b: string, ip': string, agent': string, at': nat)
    requires Feasible(env, ops) && a in Run(env, ops).docs && b in Run(env, ops).docs
    requires var d, f := Run(env, ops).docs[a], Run(env, ops).docs[b];
             && Distinguished(env, PepText(env, d, d.contractorPhone, ip, agent, at),
                              PepText(env, f, f.contractorPhone, ip', agent', at'))
             && PepEvidence(env, d, d.contractorPhone, ip, agent, at)
                == PepEvidence(env, f, f.contractorPhone, ip', agent', at')
    ensures var d, f := Run(env, ops).docs[a], Run(env, ops).docs[b];
            d.contentHash == f.contentHash && d.contractorPhone == f.contractorPhone
  {
    RunsKeepInv(env, ops);
    assert OkAt(env, Run(env, ops), a) && OkAt(env, Run(env, ops), b);
    var d, f := Run(env, ops).docs[a], Run(env, ops).docs[b];
    PepFixesContent(env, d, d.contractorPhone, ip, agent, at, f, f.contractorPhone, ip', agent', at');
  }

  /** The agreement version is not fixed: its last character can be read as the first of the address. */
  lemma PepLeavesAgreement(env: Env, d: Document, p: string, version: string, c: char, ip: string,
                           agent: string, at: nat)
    requires d.agreementVersion == version + [c]
    ensures var f := d.(agreementVersion := version);
            f.agreementVersion != d.agreementVersion
            && PepEvidence(env, f, p, [c] + ip, agent, at) == PepEvidence(env, d, p, ip, agent, at)
  {
    var f := d.(agreementVersion := version);
    PepParts(env, d, p, ip, agent, at);
    PepParts(env, f, p, [c] + ip, agent, at);
    assert |f.agreementVersion| < |d.agreementVersion|;
    assert version + ([c] + ip) + agent + env.render(at) == d.agreementVersion + ip + agent + env.render(at);
    assert PepText(env, f, p, [c] + ip, agent, at) == PepText(env, d, p, ip, agent, at);
  }

  /** Equal UKEP evidence fixes content and reference. */
  lemma UkepFixesAll(env: Env, d: Document, reference: string, f: Document, reference': string)
    requires |d.contentHash| == |f.contentHash| && Distinguished(env, UkepText(d, reference), UkepText(f, reference'))
    requires UkepEvidence(env, d, reference) == UkepEvidence(env, f, reference')
    ensures d.contentHash == f.contentHash && reference == reference'
  {
    var t := UkepText(d, reference);
    assert t[..|d.contentHash|] == d.contentHash && t[|d.contentHash|..] == reference;
    assert t[..|f.contentHash|] == f.contentHash && t[|f.contentHash|..] == reference';
  }
}
