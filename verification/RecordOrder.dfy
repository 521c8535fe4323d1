/** The order in which records are listed (history/history.go, history/search.go). */
module RecordOrder {
  import opened Basics
  import opened Sorting
  import opened Records

  /** By instant; then by sequence number when both have one and they differ; then by id. */
  predicate RecordLess(a: Record, b: Record) {
    if a.occurredAt != b.occurredAt then a.occurredAt < b.occurredAt
    else if a.sequence.Some? && b.sequence.Some? && a.sequence.value != b.sequence.value
      then a.sequence.value < b.sequence.value
    else StringLess(a.id, b.id)
  }

  ghost predicate UniqueIDs(records: set<Record>) {
    forall a, b | a in records && b in records && a.id == b.id :: a == b
  }

  /** b precedes a by id but follows it by sequence, and u, which has no sequence number, sits
      between them by id. */
  predicate Straddles(u: Record, a: Record, b: Record) {
    && a.occurredAt == b.occurredAt == u.occurredAt
    && u.sequence.None? && a.sequence.Some? && b.sequence.Some?
    && a.sequence.value < b.sequence.value
    && StringLess(b.id, u.id) && StringLess(u.id, a.id)
  }

  ghost predicate NoStraddling(records: set<Record>) {
    forall u, a, b | u in records && a in records && b in records :: !Straddles(u, a, b)
  }

  lemma RecordLessIrreflexive(a: Record)
    ensures !RecordLess(a, a)
  {
    StringLessIrreflexive(a.id);
  }

  lemma RecordLessConnected(a: Record, b: Record)
    ensures a.id == b.id || RecordLess(a, b) || RecordLess(b, a)
  {
    StringLessConnected(a.id, b.id);
  }

  lemma RecordLessTransitive(records: set<Record>, a: Record, b: Record, c: Record)
    requires UniqueIDs(records) && NoStraddling(records)
    requires a in records && b in records && c in records
    requires RecordLess(a, b) && RecordLess(b, c)
    ensures RecordLess(a, c)
  {
    if a.occurredAt == b.occurredAt == c.occurredAt {
      StringLessConnected(a.id, b.id);
      StringLessConnected(b.id, c.id);
      StringLessConnected(a.id, c.id);
      StringLessIrreflexive(a.id);
      StringLessIrreflexive(b.id);
      if StringLess(a.id, b.id) && StringLess(b.id, c.id) { StringLessTransitive(a.id, b.id, c.id); }
      if StringLess(b.id, c.id) && StringLess(c.id, a.id) { StringLessTransitive(b.id, c.id, a.id); }
      if StringLess(c.id, a.id) && StringLess(a.id, b.id) { StringLessTransitive(c.id, a.id, b.id); }
      if StringLess(a.id, b.id) && StringLess(b.id, a.id) { StringLessTransitive(a.id, b.id, a.id); }
      if StringLess(b.id, c.id) && StringLess(c.id, b.id) { StringLessTransitive(b.id, c.id, b.id); }
      assert !Straddles(a, b, c) && !Straddles(b, c, a) && !Straddles(c, a, b);
    }
  }

  /** For records with distinct ids the listing order is a strict total order exactly when no
      unsequenced record straddles two sequenced ones; then the sorted list is unique. */
  lemma RecordOrderTotalIff(records: set<Record>)
    requires UniqueIDs(records)
    ensures TotalOrderOn(RecordLess, records) <==> NoStraddling(records)
  {
    if NoStraddling(records) {
      forall a | a in records ensures !RecordLess(a, a) { RecordLessIrreflexive(a); }
      forall a, b | a in records && b in records ensures a == b || RecordLess(a, b) || RecordLess(b, a) {
        RecordLessConnected(a, b);
      }
      forall a, b, c | a in records && b in records && c in records && RecordLess(a, b) && RecordLess(b, c)
        ensures RecordLess(a, c)
      {
        RecordLessTransitive(records, a, b, c);
      }
    } else {
      var u, a, b :| u in records && a in records && b in records && Straddles(u, a, b);
      assert RecordLess(a, b) && RecordLess(b, u) && RecordLess(u, a);
      RecordLessIrreflexive(a);
      assert RecordLess(a, u) ==> RecordLess(a, a) || !TotalOrderOn(RecordLess, records);
    }
  }

  /** The usual case: at each instant either every record is sequenced or none is. */
  lemma UniformSequencing(records: set<Record>)
    requires forall a, b | a in records && b in records && a.occurredAt == b.occurredAt ::
               a.sequence.Some? == b.sequence.Some?
    ensures NoStraddling(records)
  {
  }

  /** Three records that can legally share an instant and are ordered in a cycle. */
  lemma MixedSequencingCycles(a: Record, b: Record, u: Record)
    requires a.occurredAt == b.occurredAt == u.occurredAt
    requires a.id == "c" && b.id == "a" && u.id == "b"
    requires a.sequence == Some(1) && b.sequence == Some(2) && u.sequence == None
    ensures RecordLess(a, b) && RecordLess(b, u) && RecordLess(u, a)
  {
  }

  /** A sorted list runs from early to late; within an instant sequenced records ascend by number, and
      records without one, or with the same, by id. */
  ghost predicate InListingOrder(records: seq<Record>) {
    forall i, j | 0 <= i < j < |records| ::
      && records[i].occurredAt <= records[j].occurredAt
      && (records[i].occurredAt == records[j].occurredAt ==>
            if records[i].sequence.Some? && records[j].sequence.Some? && records[i].sequence != records[j].sequence
            then records[i].sequence.value < records[j].sequence.value
            else StringLess(records[i].id, records[j].id))
  }

  lemma SortedIsInListingOrder(records: seq<Record>)
    requires Sorted(RecordLess, records)
    ensures InListingOrder(records)
  {
  }
}
