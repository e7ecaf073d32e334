/** The entries of one DeleteMessageBatch request, and the attribution of the failures in its response. */
module BatchResponse {
  import opened Options
  import opened Decimal

  datatype Entry = Entry(id: string, handle: string)

  /** batchIndex: the index named by an entry Id, if it is one that a batch of n entries can carry. */
  function BatchIndex(id: string, n: nat): Option<nat> {
    match Atoi(id)
    case None => None
    case Some(i) => if i < 0 || i >= n || Itoa(i) != id then None else Some(i)
  }

  /** batchIndex exactly inverts the printing of the indexes: it answers i for the canonical decimal of
      i and for no other text, whatever its sign or leading zeros. */
  lemma BatchIndexExact(id: string, n: nat, i: nat)
    requires n <= MAX_INT
    ensures BatchIndex(id, n) == Some(i) <==> i < n && id == Itoa(i)
  {
    if i < n {
      RoundTrip(i);
    }
  }

  /** Texts that parse to an index without being its canonical form are rejected. */
  lemma OtherFormsRejected(n: nat)
    requires 1 < n <= MAX_INT
    ensures Atoi("01") == Atoi("+1") == Some(1) && Atoi("-0") == Some(0)
    ensures BatchIndex("01", n) == BatchIndex("+1", n) == BatchIndex("-0", n) == None
  {}

  /** The request for `batch`: entry i carries the decimal of i and the i-th handle. */
  method BuildEntries(batch: seq<string>) returns (entries: seq<Entry>)
    requires |batch| <= MAX_INT
    ensures |entries| == |batch|
    ensures forall i :: 0 <= i < |batch| ==> entries[i] == Entry(Itoa(i), batch[i])
    ensures forall i, j :: 0 <= i < j < |entries| ==> entries[i].id != entries[j].id
  {
    entries := [];
    for i := 0 to |batch|
      invariant |entries| == i
      invariant forall k :: 0 <= k < i ==> entries[k] == Entry(Itoa(k), batch[k])
    {
      entries := entries + [Entry(Itoa(i), batch[i])];
    }
    forall i, j | 0 <= i < j < |entries| ensures entries[i].id != entries[j].id {
      if Itoa(i) == Itoa(j) { ItoaInjective(i, j); }
    }
  }

  /** What is logged for a failure: the handle it concerns, or the raw Id of an entry never sent. */
  datatype Report = OfHandle(handle: string) | RawId(id: string)

  datatype Outcome = RequestFailed | NoOutput | Output(failed: seq<string>)

  /** A failed entry is reported with a handle exactly when its Id is that of a sent entry, and then it
      is the handle sent under that Id. */
  ghost predicate Attributed(report: Report, id: string, batch: seq<string>) {
    && (forall i: nat :: i < |batch| && id == Itoa(i) ==> report == OfHandle(batch[i]))
    && ((forall i: nat :: i < |batch| ==> id != Itoa(i)) ==> report == RawId(id))
  }

  method ReportFailed(id: string, batch: seq<string>) returns (report: Report)
    requires |batch| <= MAX_INT
    ensures Attributed(report, id, batch)
  {
    var index := BatchIndex(id, |batch|);
    forall i: nat ensures index == Some(i) <==> i < |batch| && id == Itoa(i) {
      BatchIndexExact(id, |batch|, i);
    }
    report := if index.Some? then OfHandle(batch[index.value]) else RawId(id);
  }

  /** The reports of one request: every handle if it failed as a whole, else one per failed entry. */
  method Send(batch: seq<string>, outcome: Outcome) returns (entries: seq<Entry>, reports: seq<Report>)
    requires |batch| <= MAX_INT
    ensures |entries| == |batch| && forall i :: 0 <= i < |batch| ==> entries[i] == Entry(Itoa(i), batch[i])
    ensures outcome.RequestFailed? ==>
              |reports| == |batch| && forall i :: 0 <= i < |batch| ==> reports[i] == OfHandle(batch[i])
    ensures outcome.NoOutput? ==> reports == []
    ensures outcome.Output? ==>
              |reports| == |outcome.failed| &&
              forall k :: 0 <= k < |reports| ==> Attributed(reports[k], outcome.failed[k], batch)
  {
    entries := BuildEntries(batch);
    reports := [];
    match outcome
    case RequestFailed =>
      for i := 0 to |batch|
        invariant |reports| == i && forall k :: 0 <= k < i ==> reports[k] == OfHandle(batch[k])
      {
        reports := reports + [OfHandle(batch[i])];
      }
    case NoOutput =>
    case Output(failed) =>
      for i := 0 to |failed|
        invariant |reports| == i && forall k :: 0 <= k < i ==> Attributed(reports[k], failed[k], batch)
      {
        var report := ReportFailed(failed[i], batch);
        reports := reports + [report];
      }
  }
}
