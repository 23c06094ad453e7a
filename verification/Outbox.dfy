// The message outbox: every message is stored before it is sent, and a crash
// may fall between any two steps.
module Outbox {
  import opened Options

  // A tbot_queue row; a message's id is its position in the queue.
  datatype Message = Message(createdAt: int, text: string, attempts: nat, lastError: Option<string>, sentAt: Option<int>)

  // What the service does to the outside, in the order it does it. `ok` says
  // whether the store took the write; a send's `error` is the sender's answer.
  datatype Event =
    | Enqueue(at: int, text: string, ok: bool)
    | Send(id: nat, text: string, error: Option<string>)
    | MarkSent(id: nat, at: int, ok: bool)
    | CountFailure(id: nat, reason: string, ok: bool)

  // ---------- the queue a history leaves ----------

  function Stored(queue: seq<Message>, e: Event): seq<Message> {
    match e
    case Enqueue(at, text, ok) => if ok then queue + [Message(at, text, 0, None, None)] else queue
    case Send(_, _, _) => queue
    case MarkSent(id, at, ok) => if ok && id < |queue| then queue[id := queue[id].(sentAt := Some(at))] else queue
    case CountFailure(id, error, ok) =>
      if ok && id < |queue| then queue[id := queue[id].(attempts := queue[id].attempts + 1, lastError := Some(error))] else queue
  }

  function Queue(log: seq<Event>): seq<Message> {
    if log == [] then [] else Stored(Queue(log[..|log| - 1]), log[|log| - 1])
  }

  // ---------- the discipline every step keeps ----------

  const DIGITS: string := "0123456789"

  function TwoDigits(n: int): string
    requires 0 <= n < 100
  {
    [DIGITS[n / 10], DIGITS[n % 10]]
  }

  // " [queued 15:04]", the UTC time of day a message was stored.
  function QueuedNote(createdAt: int): string {
    " [queued " + TwoDigits((createdAt / 3600) % 24) + ":" + TwoDigits((createdAt / 60) % 60) + "]"
  }

  function DigitValue(c: char): int {
    c as int - '0' as int
  }

  // Read back, the note gives the hour and the minute of the UTC day.
  lemma NoteTellsTheTime(createdAt: int)
    ensures var note := QueuedNote(createdAt);
      && |note| == 15 && note[..9] == " [queued " && note[11] == ':' && note[14] == ']'
      && (forall i :: i in {9, 10, 12, 13} ==> '0' <= note[i] <= '9')
      && var hour, minute := 10 * DigitValue(note[9]) + DigitValue(note[10]), 10 * DigitValue(note[12]) + DigitValue(note[13]);
      && 0 <= hour < 24 && 0 <= minute < 60
      && 0 <= createdAt - (createdAt / 86400 * 86400 + hour * 3600 + minute * 60) < 60
  {
    var hour, minute := (createdAt / 3600) % 24, (createdAt / 60) % 60;
    DigitsRead(hour);
    DigitsRead(minute);
    TimeOfDay(createdAt);
    NoteIsLaidOut(createdAt);
  }

  lemma NoteIsLaidOut(createdAt: int)
    ensures var note, h, m := QueuedNote(createdAt), TwoDigits((createdAt / 3600) % 24), TwoDigits((createdAt / 60) % 60);
      && |note| == 15 && note[..9] == " [queued " && note[11] == ':' && note[14] == ']'
      && note[9] == h[0] && note[10] == h[1] && note[12] == m[0] && note[13] == m[1]
  {
  }

  lemma TimeOfDay(t: int)
    ensures 0 <= t - (t / 86400 * 86400 + (t / 3600) % 24 * 3600 + (t / 60) % 60 * 60) < 60
  {
    assert t / 60 / 60 == t / 3600 && t / 3600 / 24 == t / 86400;
  }

  lemma DigitsRead(n: int)
    requires 0 <= n < 100
    ensures var s := TwoDigits(n);
      '0' <= s[0] <= '9' && '0' <= s[1] <= '9' && 10 * DigitValue(s[0]) + DigitValue(s[1]) == n
  {
    assert forall d :: 0 <= d < 10 ==> '0' <= DIGITS[d] <= '9' && DigitValue(DIGITS[d]) == d;
  }

  // Event i follows from what came before it: only stored messages are sent,
  // with their own text, and only a send's outcome is recorded on a row.
  predicate Follows(log: seq<Event>, i: nat)
    requires i < |log|
  {
    match log[i]
    case Enqueue(_, _, _) => true
    case Send(id, text, _) =>
      var queue := Queue(log[..i]);
      id < |queue| && text in {queue[id].text, queue[id].text + QueuedNote(queue[id].createdAt)}
    case MarkSent(id, _, _) => i > 0 && log[i - 1].Send? && log[i - 1].id == id && log[i - 1].error.None?
    case CountFailure(id, error, _) => i > 0 && log[i - 1].Send? && log[i - 1].id == id && log[i - 1].error == Some(error)
  }

  predicate Disciplined(log: seq<Event>) {
    forall i :: 0 <= i < |log| ==> Follows(log, i)
  }

  // Dying anywhere leaves a history of the same kind.
  lemma CrashIsDisciplined(log: seq<Event>, n: nat)
    requires Disciplined(log) && n <= |log|
    ensures Disciplined(log[..n])
  {
    forall i | 0 <= i < n
      ensures Follows(log[..n], i)
    {
      assert log[..n][..i] == log[..i];
      assert Follows(log, i);
    }
  }

  lemma FollowsStays(log: seq<Event>, e: Event, i: nat)
    requires i < |log| && Follows(log, i)
    ensures Follows(log + [e], i)
  {
    assert (log + [e])[..i] == log[..i];
  }

  lemma OneStepMore(log: seq<Event>, e: Event)
    requires Disciplined(log) && Follows(log + [e], |log|)
    ensures Disciplined(log + [e])
    ensures Queue(log + [e]) == Stored(Queue(log), e)
  {
    assert (log + [e])[..|log|] == log;
    forall i | 0 <= i < |log + [e]|
      ensures Follows(log + [e], i)
    {
      if i < |log| {
        FollowsStays(log, e, i);
      }
    }
  }

  // ---------- conservation ----------

  function Enqueued(log: seq<Event>): seq<string> {
    if log == [] then []
    else
      var last := log[|log| - 1];
      var before := Enqueued(log[..|log| - 1]);
      if last.Enqueue? && last.ok then before + [last.text] else before
  }

  predicate IsMark(e: Event, id: nat) {
    e.MarkSent? && e.ok && e.id == id
  }

  predicate IsAcceptance(e: Event, id: nat) {
    e.Send? && e.error.None? && e.id == id
  }

  function Failures(log: seq<Event>, id: nat): nat {
    if log == [] then 0
    else
      var last := log[|log| - 1];
      Failures(log[..|log| - 1], id) + if last.CountFailure? && last.ok && last.id == id then 1 else 0
  }

  // The time of each stored message.
  function EnqueuedAt(log: seq<Event>): seq<int> {
    if log == [] then []
    else
      var last := log[|log| - 1];
      var before := EnqueuedAt(log[..|log| - 1]);
      if last.Enqueue? && last.ok then before + [last.at] else before
  }

  // The reason of the last recorded failure of a message.
  function LastReason(log: seq<Event>, id: nat): Option<string> {
    if log == [] then None
    else
      var last := log[|log| - 1];
      if last.CountFailure? && last.ok && last.id == id then Some(last.reason) else LastReason(log[..|log| - 1], id)
  }

  // The time of its last stored mark.
  function LastMark(log: seq<Event>, id: nat): Option<int> {
    if log == [] then None
    else if IsMark(log[|log| - 1], id) then Some(log[|log| - 1].at)
    else LastMark(log[..|log| - 1], id)
  }

  lemma {:induction false} OnlyKnownIds(log: seq<Event>, id: nat)
    requires Disciplined(log) && id >= |Queue(log)|
    ensures Failures(log, id) == 0 && LastReason(log, id).None? && LastMark(log, id).None?
    ensures forall i :: 0 <= i < |log| ==> !IsMark(log[i], id)
  {
    if log == [] {
    } else {
      var n := |log| - 1;
      CrashIsDisciplined(log, n);
      OnlyKnownIds(log[..n], id);
      assert Follows(log, n);
      if log[n].MarkSent? || log[n].CountFailure? {
        assert Follows(log, n - 1);
        StoredOnly(log, n - 1, n);
      }
    }
  }

  // The queue never shrinks, no text ever changes, and what is sent stays sent.
  lemma {:induction false} StoredOnly(log: seq<Event>, m: nat, n: nat)
    requires m <= n <= |log|
    ensures |Queue(log[..m])| <= |Queue(log[..n])|
    ensures forall id :: 0 <= id < |Queue(log[..m])| ==>
              Queue(log[..n])[id].text == Queue(log[..m])[id].text
              && Queue(log[..n])[id].createdAt == Queue(log[..m])[id].createdAt
              && (Queue(log[..m])[id].sentAt.Some? ==> Queue(log[..n])[id].sentAt.Some?)
              && Queue(log[..m])[id].attempts <= Queue(log[..n])[id].attempts
    decreases n
  {
    if m == n {
    } else {
      StoredOnly(log, m, n - 1);
      assert log[..n][..n - 1] == log[..n - 1];
    }
  }

  // One event adds a row at most, and no row changes its text or its time.
  lemma StoredKeeps(queue: seq<Message>, e: Event)
    ensures |Stored(queue, e)| == |queue| + (if e.Enqueue? && e.ok then 1 else 0)
    ensures forall id :: 0 <= id < |queue| ==>
              Stored(queue, e)[id].text == queue[id].text && Stored(queue, e)[id].createdAt == queue[id].createdAt
    ensures e.Enqueue? && e.ok ==>
              Stored(queue, e)[|queue|].text == e.text && Stored(queue, e)[|queue|].createdAt == e.at
  {
  }

  lemma {:induction false} TextsStay(log: seq<Event>)
    ensures |Queue(log)| == |Enqueued(log)|
    ensures forall id :: 0 <= id < |Queue(log)| ==> Queue(log)[id].text == Enqueued(log)[id]
  {
    if log == [] {
    } else {
      var n := |log| - 1;
      TextsStay(log[..n]);
      StoredKeeps(Queue(log[..n]), log[n]);
    }
  }

  lemma {:induction false} TimesStay(log: seq<Event>)
    ensures |Queue(log)| == |EnqueuedAt(log)|
    ensures forall id :: 0 <= id < |Queue(log)| ==> Queue(log)[id].createdAt == EnqueuedAt(log)[id]
  {
    if log == [] {
    } else {
      var n := |log| - 1;
      TimesStay(log[..n]);
      StoredKeeps(Queue(log[..n]), log[n]);
    }
  }

  predicate Marked(log: seq<Event>, id: nat) {
    exists i :: 0 <= i < |log| && IsMark(log[i], id)
  }

  lemma OneEventMore(log: seq<Event>, id: nat)
    requires log != []
    ensures var n := |log| - 1;
      Marked(log, id) <==> Marked(log[..n], id) || IsMark(log[n], id)
  {
    var n := |log| - 1;
    if Marked(log[..n], id) {
      var i :| 0 <= i < n && IsMark(log[..n][i], id);
      assert IsMark(log[i], id);
    }
    if i :| 0 <= i < |log| && IsMark(log[i], id) {
      assert i < n ==> IsMark(log[..n][i], id);
    }
  }

  // One row says what the history did with its message.
  lemma {:induction false} RowTells(log: seq<Event>, id: nat)
    requires Disciplined(log) && id < |Queue(log)|
    ensures Queue(log)[id].attempts == Failures(log, id) && Queue(log)[id].lastError == LastReason(log, id)
    ensures Queue(log)[id].sentAt == LastMark(log, id)
    ensures Queue(log)[id].sentAt.Some? <==> Marked(log, id)
  {
    var n := |log| - 1;
    var before := log[..n];
    CrashIsDisciplined(log, n);
    OneEventMore(log, id);
    if id < |Queue(before)| {
      RowTells(before, id);
    } else {
      OnlyKnownIds(before, id);
    }
  }

  // Whatever crashed and whatever failed: every message stored is still there
  // with its text and time, it counts as unsent until a stored mark says
  // otherwise and then has the time of the last one, its attempts are exactly
  // the failures recorded, and its error is the last of them.
  lemma NothingIsLost(log: seq<Event>)
    requires Disciplined(log)
    ensures |Queue(log)| == |Enqueued(log)| == |EnqueuedAt(log)|
    ensures forall id :: 0 <= id < |Queue(log)| ==>
              && Queue(log)[id].text == Enqueued(log)[id] && Queue(log)[id].createdAt == EnqueuedAt(log)[id]
              && Queue(log)[id].attempts == Failures(log, id) && Queue(log)[id].lastError == LastReason(log, id)
              && (Queue(log)[id].sentAt.Some? <==> Marked(log, id)) && Queue(log)[id].sentAt == LastMark(log, id)
  {
    TextsStay(log);
    TimesStay(log);
    forall id | 0 <= id < |Queue(log)|
      ensures Queue(log)[id].attempts == Failures(log, id) && Queue(log)[id].lastError == LastReason(log, id)
      ensures (Queue(log)[id].sentAt.Some? <==> Marked(log, id)) && Queue(log)[id].sentAt == LastMark(log, id)
    {
      RowTells(log, id);
    }
  }

  // A message marked sent was accepted by the sender, with its own text.
  lemma SentWasAccepted(log: seq<Event>, id: nat) returns (i: nat)
    requires Disciplined(log) && id < |Queue(log)| && Queue(log)[id].sentAt.Some?
    ensures i < |log| && IsAcceptance(log[i], id)
    ensures log[i].text in {Queue(log)[id].text, Queue(log)[id].text + QueuedNote(Queue(log)[id].createdAt)}
  {
    NothingIsLost(log);
    var m :| 0 <= m < |log| && IsMark(log[m], id);
    assert Follows(log, m);
    i := m - 1;
    assert Follows(log, i);
    StoredOnly(log, i, |log|);
    assert log[..|log|] == log;
  }

  // ---------- listing ----------

  // SELECT ... WHERE sent_at IS NULL ORDER BY created_at ASC; ties in any order.
  predicate IsListing(queue: seq<Message>, ids: seq<nat>) {
    && (forall i :: 0 <= i < |ids| ==> ids[i] < |queue| && queue[ids[i]].sentAt.None?)
    && (forall i, j :: 0 <= i < j < |ids| ==> ids[i] != ids[j])
    && (forall i, j :: 0 <= i < j < |ids| ==> ids[i] < |queue| && ids[j] < |queue| && queue[ids[i]].createdAt <= queue[ids[j]].createdAt)
    && (forall id: nat :: id < |queue| && queue[id].sentAt.None? ==> id in ids)
  }

  // ---------- the service ----------

  // `answers(n)` and `fails(n)` say how the sender and the store take the n-th
  // event of the whole history, and `clock(n)` when it happens.
  class Service {
    const answers: nat -> Option<string>
    const fails: nat -> bool
    const clock: nat -> int
    var queue: seq<Message>
    var log: seq<Event>

    ghost predicate Valid()
      reads this
    {
      Disciplined(log) && queue == Queue(log)
    }

    // A process starting over the queue that earlier ones, crashed or not,
    // left behind.
    constructor (answers: nat -> Option<string>, fails: nat -> bool, clock: nat -> int, queue: seq<Message>, log: seq<Event>)
      requires Disciplined(log) && queue == Queue(log)
      ensures Valid() && this.queue == queue && this.log == log
      ensures this.answers == answers && this.fails == fails && this.clock == clock
    {
      this.answers, this.fails, this.clock, this.queue, this.log := answers, fails, clock, queue, log;
    }

    method Record(e: Event)
      requires Valid() && Follows(log + [e], |log|)
      modifies this
      ensures Valid() && log == old(log) + [e] && queue == Stored(old(queue), e)
    {
      OneStepMore(log, e);
      queue := Stored(queue, e);
      log := log + [e];
    }

    // The two events of one delivery attempt, from position n on.
    ghost predicate Attempted(events: seq<Event>, n: nat, id: nat, text: string)
      requires n + 1 < |events|
    {
      && events[n] == Send(id, text, answers(n))
      && if answers(n).None? then events[n + 1] == MarkSent(id, clock(n + 1), !fails(n + 1))
         else events[n + 1] == CountFailure(id, answers(n).value, !fails(n + 1))
    }

    method AttemptSend(id: nat, text: string) returns (failed: bool)
      requires Valid() && id < |queue|
      requires text in {queue[id].text, queue[id].text + QueuedNote(queue[id].createdAt)}
      modifies this
      ensures Valid() && old(log) <= log && |log| == |old(log)| + 2
      ensures Attempted(log, |old(log)|, id, text)
      ensures failed == fails(|log| - 1)
      ensures |queue| == |old(queue)|
      ensures forall k :: 0 <= k < |queue| && k != id ==> queue[k] == old(queue)[k]
      ensures queue[id].text == old(queue)[id].text && queue[id].createdAt == old(queue)[id].createdAt
    {
      var n := |log|;
      var sendErr := answers(n);
      assert (log + [Send(id, text, sendErr)])[..n] == log;
      Record(Send(id, text, sendErr));
      failed := fails(n + 1);
      if sendErr.None? {
        Record(MarkSent(id, clock(n + 1), !failed));
      } else {
        Record(CountFailure(id, sendErr.value, !failed));
      }
    }

    // Stored first, then tried once; an error means the store failed.
    method Notify(text: string) returns (failed: bool)
      requires Valid()
      modifies this
      ensures Valid() && old(log) < log
      ensures log[|old(log)|] == Enqueue(clock(|old(log)|), text, !fails(|old(log)|))
      ensures fails(|old(log)|) ==> failed && |log| == |old(log)| + 1 && queue == old(queue)
      ensures !fails(|old(log)|) ==>
                |log| == |old(log)| + 3 && Attempted(log, |old(log)| + 1, |old(queue)|, text) && failed == fails(|log| - 1)
      ensures !fails(|old(log)|) ==> |queue| == |old(queue)| + 1 && queue[..|old(queue)|] == old(queue)
    {
      var n := |log|;
      failed := fails(n);
      Record(Enqueue(clock(n), text, !failed));
      if failed {
        return;
      }
      failed := AttemptSend(|queue| - 1, text);
    }

    // The outcome of the k-th attempt of a flush was not stored.
    predicate Unstored(start: nat, k: nat) {
      fails(start + 2 * k + 1)
    }

    ghost predicate LastUnstored(start: nat, n: nat, k: nat) {
      k < n && Unstored(start, k) && forall j: nat :: k < j < n ==> !Unstored(start, j)
    }

    // What a flush carries after its first n attempts.
    ghost predicate Tally(start: nat, ids: seq<nat>, n: nat, failed: bool, lastErr: Option<nat>)
      requires n <= |ids|
    {
      if failed then exists k: nat :: LastUnstored(start, n, k) && lastErr == Some(ids[k])
      else forall k: nat :: k < n ==> !Unstored(start, k)
    }

    lemma TallyOneMore(start: nat, ids: seq<nat>, n: nat, failed: bool, lastErr: Option<nat>)
      requires n < |ids| && Tally(start, ids, n, failed, lastErr)
      ensures if Unstored(start, n) then Tally(start, ids, n + 1, true, Some(ids[n])) else Tally(start, ids, n + 1, failed, lastErr)
    {
      if Unstored(start, n) {
        assert LastUnstored(start, n + 1, n);
      } else if failed {
        var k: nat :| LastUnstored(start, n, k) && lastErr == Some(ids[k]);
        assert LastUnstored(start, n + 1, k);
      }
    }

    // The first n rows of a list were tried, one after the other.
    ghost predicate Tried(events: seq<Event>, start: nat, rows: seq<Message>, ids: seq<nat>, n: nat)
      requires n <= |ids| && |events| >= start + 2 * n
    {
      forall k: nat :: k < n ==>
        ids[k] < |rows| && Attempted(events, start + 2 * k, ids[k], rows[ids[k]].text + QueuedNote(rows[ids[k]].createdAt))
    }

    lemma TriedStays(events: seq<Event>, more: seq<Event>, start: nat, rows: seq<Message>, ids: seq<nat>, n: nat)
      requires n <= |ids| && |events| >= start + 2 * n && events <= more
      requires Tried(events, start, rows, ids, n)
      ensures Tried(more, start, rows, ids, n)
    {
      forall k: nat | k < n
        ensures ids[k] < |rows| && Attempted(more, start + 2 * k, ids[k], rows[ids[k]].text + QueuedNote(rows[ids[k]].createdAt))
      {
        assert Attempted(events, start + 2 * k, ids[k], rows[ids[k]].text + QueuedNote(rows[ids[k]].createdAt));
        assert more[start + 2 * k] == events[start + 2 * k] && more[start + 2 * k + 1] == events[start + 2 * k + 1];
      }
    }

    lemma OneMoreTried(events: seq<Event>, more: seq<Event>, start: nat, rows: seq<Message>, ids: seq<nat>, n: nat)
      requires n < |ids| && |events| == start + 2 * n && |more| == |events| + 2 && events <= more
      requires Tried(events, start, rows, ids, n) && ids[n] < |rows|
      requires Attempted(more, |events|, ids[n], rows[ids[n]].text + QueuedNote(rows[ids[n]].createdAt))
      ensures Tried(more, start, rows, ids, n + 1)
    {
      TriedStays(events, more, start, rows, ids, n);
    }

    // Rows outside the list are as they were.
    ghost predicate Others(rows: seq<Message>, after: seq<Message>, ids: seq<nat>) {
      |rows| == |after| && forall id: nat :: id < |rows| && id !in ids ==> after[id] == rows[id]
    }

    lemma OthersStay(rows: seq<Message>, before: seq<Message>, after: seq<Message>, ids: seq<nat>, m: nat)
      requires Others(rows, before, ids) && |after| == |before|
      requires forall k :: 0 <= k < |after| && k != m ==> after[k] == before[k]
      ensures Others(rows, after, ids + [m])
    {
      forall id: nat | id < |rows| && id !in ids + [m]
        ensures after[id] == rows[id]
      {
        assert (ids + [m])[|ids|] == m && id != m;
        assert id !in ids by {
          assert forall i :: 0 <= i < |ids| ==> (ids + [m])[i] == ids[i];
        }
      }
    }

    // Every send from event m up to n is accepted, and every write taken.
    ghost predicate Unhindered(m: nat, n: nat) {
      forall k: nat :: m <= k < n ==> answers(k).None? && !fails(k)
    }

    predicate AllSent(rows: seq<Message>) {
      forall id :: 0 <= id < |rows| ==> rows[id].sentAt.Some?
    }

    // Then a flush leaves no unsent message.
    lemma AllDelivered(rows: seq<Message>, start: nat, msgs: seq<nat>)
      requires Valid() && IsListing(rows, msgs) && |log| == start + 2 * |msgs|
      requires Tried(log, start, rows, msgs, |msgs|) && Others(rows, queue, msgs)
      ensures Unhindered(start, |log|) ==> AllSent(queue)
    {
      forall id: nat | Unhindered(start, |log|) && id < |queue|
        ensures queue[id].sentAt.Some?
      {
        if id in msgs {
          var k: nat :| k < |msgs| && msgs[k] == id;
          assert Attempted(log, start + 2 * k, msgs[k], rows[msgs[k]].text + QueuedNote(rows[msgs[k]].createdAt));
          assert IsMark(log[start + 2 * k + 1], id);
          RowTells(log, id);
        } else {
          assert queue[id] == rows[id];
        }
      }
    }

    // The first n rows of the list were tried, and only they may have changed.
    ghost predicate Progress(start: nat, rows: seq<Message>, msgs: seq<nat>, n: nat)
      requires n <= |msgs|
      reads this
    {
      |log| == start + 2 * n && Tried(log, start, rows, msgs, n) && Others(rows, queue, msgs[..n])
    }

    method FlushOne(ghost rows: seq<Message>, ghost start: nat, msgs: seq<nat>, i: nat) returns (failed: bool)
      requires Valid() && IsListing(rows, msgs) && i < |msgs| && Progress(start, rows, msgs, i)
      modifies this
      ensures Valid() && old(log) <= log && Progress(start, rows, msgs, i + 1)
      ensures failed == Unstored(start, i)
    {
      var m := msgs[i];
      assert m !in msgs[..i];
      var text := queue[m].text + QueuedNote(queue[m].createdAt);
      failed := AttemptSend(m, text);
      OneMoreTried(old(log), log, start, rows, msgs, i);
      OthersStay(rows, old(queue), queue, msgs[..i], m);
      assert msgs[..i + 1] == msgs[..i] + [m];
    }

    // Each listed row is tried exactly once, in listed order, whatever happens
    // to the others; the error carries the last row whose outcome was not
    // stored.
    method Flush(listed: Option<seq<nat>>) returns (failed: bool, lastErr: Option<nat>)
      requires Valid() && (listed.Some? ==> IsListing(queue, listed.value))
      modifies this
      ensures Valid() && old(log) <= log
      ensures listed.None? ==> failed && log == old(log) && queue == old(queue)
      ensures listed.Some? ==> |log| == |old(log)| + 2 * |listed.value|
      ensures listed.Some? ==> Tried(log, |old(log)|, old(queue), listed.value, |listed.value|)
      ensures listed.Some? ==> Others(old(queue), queue, listed.value)
      ensures listed.Some? ==> Tally(|old(log)|, listed.value, |listed.value|, failed, lastErr)
      ensures listed.Some? && Unhindered(|old(log)|, |log|) ==> AllSent(queue)
    {
      if listed.None? {
        return true, None;
      }
      failed, lastErr := false, None;
      var msgs := listed.value;
      ghost var start, rows := |log|, queue;
      for i := 0 to |msgs|
        invariant Valid() && old(log) <= log && Progress(start, rows, msgs, i)
        invariant Tally(start, msgs, i, failed, lastErr)
      {
        var err := FlushOne(rows, start, msgs, i);
        TallyOneMore(start, msgs, i, failed, lastErr);
        if err {
          failed, lastErr := true, Some(msgs[i]);
        }
      }
      assert msgs[..|msgs|] == msgs;
      AllDelivered(rows, start, msgs);
    }
  }
}
