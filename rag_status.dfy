/**
 * The shared build-status record of the indexing routine (`RAG_STATUS` in
 * `ijunavi/rag_service.py`), with its partial update `_set_status(**kwargs)`
 * and its snapshot read `get_rag_status()`. The lock around both is left out:
 * the record is modelled as one sequential object.
 */
module RagStatus {
  import opened Common

  /** The `state` field: `idle`, `building`, `ready` or `error`. */
  datatype BuildState = Idle | Building | Ready | Error

  /** One snapshot of the record, as `get_rag_status()` returns it. */
  datatype Status = Status(
    state: BuildState,
    total: int,
    current: int,
    percent: int,
    message: string,
    error: string)

  /** The record a freshly started process holds. */
  const InitialStatus: Status := Status(Idle, 0, 0, 0, "", "")

  /** The keyword arguments of one `_set_status` call; `None` marks a key that was not passed. */
  datatype Update = Update(
    state: Option<BuildState>,
    total: Option<int>,
    current: Option<int>,
    percent: Option<int>,
    message: Option<string>,
    error: Option<string>)

  /** An update that passes every key, as each call in the indexing routine does. */
  function FullUpdate(s: Status): (u: Update)
  {
    Update(Some(s.state), Some(s.total), Some(s.current), Some(s.percent), Some(s.message), Some(s.error))
  }

  function Pick<T>(given: Option<T>, previous: T): T
  {
    match given
    case Some(v) => v
    case None => previous
  }

  /** `dict.update(kwargs)` on the record: passed keys take the new value. */
  function Apply(s: Status, u: Update): Status
  {
    Status(
      Pick(u.state, s.state),
      Pick(u.total, s.total),
      Pick(u.current, s.current),
      Pick(u.percent, s.percent),
      Pick(u.message, s.message),
      Pick(u.error, s.error))
  }

  /** Two successive updates act as one in which the later one's keys win. */
  function Merge(first: Update, second: Update): Update
  {
    Update(
      if second.state.Some? then second.state else first.state,
      if second.total.Some? then second.total else first.total,
      if second.current.Some? then second.current else first.current,
      if second.percent.Some? then second.percent else first.percent,
      if second.message.Some? then second.message else first.message,
      if second.error.Some? then second.error else first.error)
  }

  /** A key that is not passed keeps its value; a key that is passed takes the given one. */
  lemma ApplyChangesOnlyPassedKeys(s: Status, u: Update)
    ensures u.state.None? ==> Apply(s, u).state == s.state
    ensures u.total.None? ==> Apply(s, u).total == s.total
    ensures u.current.None? ==> Apply(s, u).current == s.current
    ensures u.percent.None? ==> Apply(s, u).percent == s.percent
    ensures u.message.None? ==> Apply(s, u).message == s.message
    ensures u.error.None? ==> Apply(s, u).error == s.error
    ensures u.state.Some? ==> Apply(s, u).state == u.state.value
    ensures u.total.Some? ==> Apply(s, u).total == u.total.value
    ensures u.current.Some? ==> Apply(s, u).current == u.current.value
    ensures u.percent.Some? ==> Apply(s, u).percent == u.percent.value
    ensures u.message.Some? ==> Apply(s, u).message == u.message.value
    ensures u.error.Some? ==> Apply(s, u).error == u.error.value
  {
  }

  /** Repeating an update changes nothing more. */
  lemma ApplyIdempotent(s: Status, u: Update)
    ensures Apply(Apply(s, u), u) == Apply(s, u)
  {
  }

  /** Applying two updates in turn equals applying their merge. */
  lemma ApplyMerge(s: Status, first: Update, second: Update)
    ensures Apply(Apply(s, first), second) == Apply(s, Merge(first, second))
  {
  }

  /** An update that passes every key sets the whole record, whatever it held before. */
  lemma FullUpdateOverwrites(s: Status, t: Status)
    ensures Apply(s, FullUpdate(t)) == t
  {
  }

  /**
   * The process-wide record. `history` lists every snapshot a poller could
   * observe, oldest first: the initial record, then one per update.
   */
  class StatusTracker {
    var state: BuildState
    var total: int
    var current: int
    var percent: int
    var message: string
    var error: string
    ghost var history: seq<Status>

    function Snapshot(): Status
      reads this
    {
      Status(state, total, current, percent, message, error)
    }

    constructor ()
      ensures Snapshot() == InitialStatus
      ensures history == [InitialStatus]
    {
      state, total, current, percent, message, error := Idle, 0, 0, 0, "", "";
      history := [InitialStatus];
    }

    /** `get_rag_status()`: a copy of the record. */
    method GetRagStatus() returns (s: Status)
      ensures s == Snapshot()
    {
      s := Status(state, total, current, percent, message, error);
    }

    /** `_set_status(**kwargs)`: the passed keys change and nothing else. */
    method SetStatus(u: Update)
      modifies this
      ensures Snapshot() == Apply(old(Snapshot()), u)
      ensures history == old(history) + [Snapshot()]
    {
      state := Pick(u.state, state);
      total := Pick(u.total, total);
      current := Pick(u.current, current);
      percent := Pick(u.percent, percent);
      message := Pick(u.message, message);
      error := Pick(u.error, error);
      history := history + [Snapshot()];
    }
  }

  /** A snapshot taken before an update is not affected by it. */
  method SnapshotSurvivesUpdate(t: StatusTracker, u: Update) returns (before: Status, after: Status)
    modifies t
    ensures before == old(t.Snapshot())
    ensures after == t.Snapshot() == Apply(before, u)
  {
    before := t.GetRagStatus();
    t.SetStatus(u);
    after := t.GetRagStatus();
  }
}
