/** A session over its lifetime: the serial sequence of `AddTemplate` and
    `SetRecordSize` calls made on it. Decoders running concurrently take the
    session's lock around each compound step, so whatever interleaving they
    produce is one such sequence; the lemmas here hold for every sequence,
    and so for every serialized interleaving. */
module History {
  import opened Ids
  import opened Wrappers
  import opened Session

  /** One state-changing call on a session. (The getters change nothing.) */
  datatype Op<Def> =
    | AddTemplateOp(t: Template<Def>)
    | SetRecordSizeOp(tid: TemplateID, oid: DomainID, size: Int64)

  function Apply<Def>(s: BasicSession<Def>, op: Op<Def>): (s': BasicSession<Def>) {
    match op
    case AddTemplateOp(t) => AddTemplate(s, t)
    case SetRecordSizeOp(tid, oid, size) => SetRecordSize(s, tid, oid, size)
  }

  /** The session after performing `ops` in order, starting from `s`. */
  function Run<Def>(s: BasicSession<Def>, ops: seq<Op<Def>>): (s': BasicSession<Def>)
    decreases |ops|
  {
    if ops == [] then s else Apply(Run(s, ops[..|ops| - 1]), ops[|ops| - 1])
  }

  /** Reference reading of the template table: the template most recently
      added under (tid, oid) in `ops`, if any. */
  function LatestTemplate<Def>(ops: seq<Op<Def>>, tid: TemplateID, oid: DomainID): (latest: Option<Template<Def>>)
    decreases |ops|
  {
    if ops == [] then None
    else
      var op := ops[|ops| - 1];
      if op.AddTemplateOp? && op.t.tid == tid && op.t.oid == oid then Some(op.t)
      else LatestTemplate(ops[..|ops| - 1], tid, oid)
  }

  /** Reference reading of the size table: the largest size recorded for
      (tid, oid) in `ops`, or 0 when none is larger than 0. */
  function PeakSize<Def>(ops: seq<Op<Def>>, tid: TemplateID, oid: DomainID): (peak: int)
    decreases |ops|
  {
    if ops == [] then 0
    else
      var op := ops[|ops| - 1];
      var rest := PeakSize(ops[..|ops| - 1], tid, oid);
      if op.SetRecordSizeOp? && op.tid == tid && op.oid == oid then Max(rest, op.size) else rest
  }

  /** The store's own operations keep every template filed under its own IDs
      and every stored size positive. */
  lemma {:induction false} RunKeepsValid<Def>(s: BasicSession<Def>, ops: seq<Op<Def>>)
    requires Valid(s)
    ensures Valid(Run(s, ops))
    decreases |ops|
  {
    if ops != [] {
      RunKeepsValid(s, ops[..|ops| - 1]);
    }
  }

  /** Last write wins across a whole history: a lookup finds the latest
      template added under its IDs, and otherwise whatever was there before.
      Size updates never affect it. */
  lemma {:induction false} RunFindsLatestTemplate<Def>(s: BasicSession<Def>, ops: seq<Op<Def>>, tid: TemplateID, oid: DomainID)
    ensures GetTemplate(Run(s, ops), tid, oid)
         == if LatestTemplate(ops, tid, oid).Some? then LatestTemplate(ops, tid, oid) else GetTemplate(s, tid, oid)
    decreases |ops|
  {
    if ops != [] {
      RunFindsLatestTemplate(s, ops[..|ops| - 1], tid, oid);
    }
  }

  /** The size table accumulates a maximum across a whole history: the size
      read back is the larger of the starting size and every size recorded
      for the key, and the key is present exactly when it was already
      present or some recorded size was positive. Template additions never
      affect it. The starting session must satisfy Valid, as every
      session the store builds does; a stored size below 0 would otherwise
      let the maximum start below the zero that an absent key reads as. */
  lemma {:induction false} RunKeepsPeakSize<Def>(s: BasicSession<Def>, ops: seq<Op<Def>>, tid: TemplateID, oid: DomainID)
    requires Valid(s)
    ensures GetRecordSize(Run(s, ops), tid, oid).size == Max(GetRecordSize(s, tid, oid).size, PeakSize(ops, tid, oid))
    ensures GetRecordSize(Run(s, ops), tid, oid).found <==> GetRecordSize(s, tid, oid).found || PeakSize(ops, tid, oid) > 0
    decreases |ops|
  {
    if ops != [] {
      RunKeepsPeakSize(s, ops[..|ops| - 1], tid, oid);
    }
  }

  /** Along any history, a stored size never decreases and never disappears. */
  lemma {:induction false} SizesNeverDecrease<Def>(s: BasicSession<Def>, ops: seq<Op<Def>>, tid: TemplateID, oid: DomainID)
    requires GetRecordSize(s, tid, oid).found
    ensures GetRecordSize(Run(s, ops), tid, oid).found
    ensures GetRecordSize(Run(s, ops), tid, oid).size >= GetRecordSize(s, tid, oid).size
    decreases |ops|
  {
    if ops != [] {
      SizesNeverDecrease(s, ops[..|ops| - 1], tid, oid);
    }
  }

  /** Threads that each add templates under keys no other addition uses, with
      every call serialized by the session lock: once all have finished, every
      template is retrievable from a session that started out new. */
  lemma SerializedDisjointAddsAllRetrievable<Def>(ops: seq<Op<Def>>)
    requires forall i, j :: 0 <= i < j < |ops| && ops[i].AddTemplateOp? && ops[j].AddTemplateOp?
               ==> ops[i].t.tid != ops[j].t.tid || ops[i].t.oid != ops[j].t.oid
    ensures forall i :: 0 <= i < |ops| && ops[i].AddTemplateOp?
              ==> GetTemplate(Run(New(), ops), ops[i].t.tid, ops[i].t.oid) == Some(ops[i].t)
  {
    forall i | 0 <= i < |ops| && ops[i].AddTemplateOp?
      ensures GetTemplate(Run(New(), ops), ops[i].t.tid, ops[i].t.oid) == Some(ops[i].t)
    {
      RunFindsLatestTemplate(New(), ops, ops[i].t.tid, ops[i].t.oid);
      LatestIsOnlyAdd(ops, i);
    }
  }

  /** If the addition at index i is the only one under its IDs, it is the
      latest one. */
  lemma {:induction false} LatestIsOnlyAdd<Def>(ops: seq<Op<Def>>, i: nat)
    requires i < |ops| && ops[i].AddTemplateOp?
    requires forall j :: i < j < |ops| && ops[j].AddTemplateOp? ==> ops[i].t.tid != ops[j].t.tid || ops[i].t.oid != ops[j].t.oid
    ensures LatestTemplate(ops, ops[i].t.tid, ops[i].t.oid) == Some(ops[i].t)
    decreases |ops|
  {
    if i < |ops| - 1 {
      LatestIsOnlyAdd(ops[..|ops| - 1], i);
    }
  }
}
