/** One document and the transactions about it, for the concrete runs that show where a property fails. */
module Sample {
  import opened Domain
  import opened Tables
  import Billing

  const SAMPLE: Document := Document("d", "", "", "", "c", "p", "", "", 0, Draft, "", 0)

  const SUBSCRIBED: Tables := EMPTY.(subscriptions := map["c" := Subscription("start", "active", 0, 1)])

  function SampleEvent(name: string): AuditEvent { AuditEvent(name, "d", "", "", "", "", name, 0) }

  function SampleRow(name: string, kind: string,
                     status: Status): OutboxRow { OutboxRow(name, "d", kind, status, false) }

  lemma SampleSubscribed()
    ensures UpsertSubscription(EMPTY, Update("c", "start", "active", 1)) == Some(SUBSCRIBED)
  {
    Billing.KnownPlans("start");
  }

  lemma SampleSaves()
    ensures var t := SaveDocument(SUBSCRIBED, SAMPLE, SampleEvent("1"), "1", 0);
            && t.Some? && t.value.documents == map["d" := SAMPLE] && t.value.audit == [SampleEvent("1")]
            && t.value.outbox == [SampleRow("1", DOCUMENT_CREATED, Draft)] && t.value.links == map[]
  {
    Billing.KnownPlans("start");
    assert AsStored(SAMPLE) == SAMPLE;
  }

  lemma SampleChanges(db: Tables, status: Status, name: string)
    requires "d" in db.documents && db.documents["d"] == SAMPLE
    requires forall e | e in db.audit :: e.id != name && e.hash != name
    ensures SaveStatus(db, SAMPLE.(status := status), SampleEvent(name), name) ==
              Some(db.(documents := db.documents["d" := SAMPLE.(status := status)],
                       audit := db.audit + [SampleEvent(name)],
                       outbox := db.outbox + [SampleRow(name, STATUS_CHANGED, status)]))
  {
  }
}
