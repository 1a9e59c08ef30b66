/** The streaming reconciler: how one inbound frame updates the message log
    and the busy (`isLoading`) flag. */
module Reconciler {
  import opened Wrappers
  import opened Protocol
  import opened Messages

  /** What the frames act on: the message log and the busy flag. */
  datatype Chat = Chat(messages: seq<Message>, isLoading: bool)

  const WarningPrefix: string := "⚠️ "
  const DefaultErrorText: string := "エラーが発生しました。時間をおいて再実行してください。"

  /** The empty AI bubble a `PENDING` frame opens. */
  const StreamStart: Message := Message("", Ai, None, Stream)

  /** `data.text || ''`: the fragment a `DELTA` frame contributes. */
  function DeltaText(text: Option<string>): string {
    text.GetOr("")
  }

  /** `data.message || default`: a missing or empty message falls back to
      the default text, so the shown error is never empty. */
  function ErrorText(message: Option<string>): (r: string)
    ensures r != ""
    ensures message.Some? && message.value != "" ==> r == message.value
    ensures message.None? || message.value == "" ==> r == DefaultErrorText
  {
    if message.Some? && message.value != "" then message.value else DefaultErrorText
  }

  /** The `DELTA` map: `t` is appended to every stream message, every other
      message is left as it is. */
  function AppendToStream(log: seq<Message>, t: string): (r: seq<Message>)
    ensures |r| == |log|
    ensures forall i :: 0 <= i < |log| && IsStream(log[i]) ==> r[i] == log[i].(text := log[i].text + t)
    ensures forall i :: 0 <= i < |log| && !IsStream(log[i]) ==> r[i] == log[i]
    ensures StreamCount(r) == StreamCount(log)
  {
    if log == [] then []
    else
      var head := if IsStream(log[0]) then log[0].(text := log[0].text + t) else log[0];
      var rest := AppendToStream(log[1..], t);
      StreamCountCons(head, rest);
      [head] + rest
  }

  /** The `END` map: every stream message loses its marker and keeps its
      text; the others are left as they are. */
  function FinalizeStream(log: seq<Message>): (r: seq<Message>)
    ensures |r| == |log|
    ensures forall i :: 0 <= i < |log| && IsStream(log[i]) ==> r[i] == log[i].(id := Unmarked)
    ensures forall i :: 0 <= i < |log| && !IsStream(log[i]) ==> r[i] == log[i]
    ensures StreamCount(r) == 0
  {
    if log == [] then []
    else
      var head := if IsStream(log[0]) then log[0].(id := Unmarked) else log[0];
      var rest := FinalizeStream(log[1..]);
      StreamCountCons(head, rest);
      [head] + rest
  }

  /** The `ERROR` map: every stream message becomes the finalized `notice`. */
  function ReplaceStream(log: seq<Message>, notice: string): (r: seq<Message>)
    ensures |r| == |log|
    ensures forall i :: 0 <= i < |log| && IsStream(log[i]) ==> r[i] == log[i].(text := notice, id := Unmarked)
    ensures forall i :: 0 <= i < |log| && !IsStream(log[i]) ==> r[i] == log[i]
    ensures StreamCount(r) == 0
  {
    if log == [] then []
    else
      var head := if IsStream(log[0]) then log[0].(text := notice, id := Unmarked) else log[0];
      var rest := ReplaceStream(log[1..], notice);
      StreamCountCons(head, rest);
      [head] + rest
  }

  /** `log.filter(m => m.id !== 'loading')`. */
  function DropLoading(log: seq<Message>): (r: seq<Message>)
    ensures |r| <= |log|
    ensures forall m :: m in r <==> m in log && m.id != Loading
    ensures StreamCount(r) == StreamCount(log)
  {
    if log == [] then []
    else
      var rest := DropLoading(log[1..]);
      assert log == [log[0]] + log[1..];
      if log[0].id == Loading then rest
      else
        StreamCountCons(log[0], rest);
        [log[0]] + rest
  }

  /** The filter keeps a message exactly when it is not a placeholder. */
  lemma DropLoadingOne(m: Message)
    ensures DropLoading([m]) == if m.id == Loading then [] else [m]
  {
    assert [m][1..] == [];
  }

  /** The filter works message by message: it distributes over
      concatenation, so the kept messages stay in order, duplicates
      included. */
  lemma {:induction false} DropLoadingConcat(a: seq<Message>, b: seq<Message>)
    ensures DropLoading(a + b) == DropLoading(a) + DropLoading(b)
    decreases |a|
  {
    if a == [] {
      assert a + b == b;
    } else {
      assert (a + b)[0] == a[0];
      assert (a + b)[1..] == a[1..] + b;
      DropLoadingConcat(a[1..], b);
    }
  }

  /** A log without placeholders passes the filter unchanged. */
  lemma {:induction false} DropLoadingKeeps(log: seq<Message>)
    requires forall i :: 0 <= i < |log| ==> log[i].id != Loading
    ensures DropLoading(log) == log
  {
    if log != [] {
      assert forall i :: 0 <= i < |log[1..]| ==> log[1..][i] == log[i + 1];
      DropLoadingKeeps(log[1..]);
      assert log == [log[0]] + log[1..];
    }
  }

  /** One frame folded into the chat, branch by branch as `onmessage` does. */
  function Step(c: Chat, e: Event): (r: Chat) {
    match e
    case Pending => Chat(c.messages + [StreamStart], true)
    case Delta(text) => Chat(AppendToStream(c.messages, DeltaText(text)), c.isLoading)
    case Error(message) =>
      var base := DropLoading(c.messages);
      var notice := WarningPrefix + ErrorText(message);
      Chat(if HasStream(base) then ReplaceStream(base, notice) else base + [AiText(notice)], false)
    case End => Chat(FinalizeStream(c.messages), false)
    case Completed(review) => Chat(c.messages + [AiText(review)], false)
    case Unknown(_) => c
  }

  /** Frames folded in arrival order. */
  function Run(c: Chat, es: seq<Event>): (r: Chat)
    decreases |es|
  {
    if es == [] then c else Run(Step(c, es[0]), es[1..])
  }

  // ---------------------------------------------------------------- lemmas

  /** Without a stream message, the `DELTA`, `END` and `ERROR` maps change nothing. */
  lemma NoStreamUnchanged(log: seq<Message>, t: string)
    requires !HasStream(log)
    ensures AppendToStream(log, t) == log
    ensures FinalizeStream(log) == log
    ensures ReplaceStream(log, t) == log
  {
  }

  /** `PENDING` appends exactly one empty AI stream message, sets busy and
      keeps the earlier messages. */
  lemma PendingAppendsStream(c: Chat)
    ensures var r := Step(c, Pending);
      r.isLoading && |r.messages| == |c.messages| + 1 &&
      r.messages[..|c.messages|] == c.messages &&
      r.messages[|c.messages|] == Message("", Ai, None, Stream)
    ensures StreamCount(Step(c, Pending).messages) == StreamCount(c.messages) + 1
  {
    StreamCountConcat(c.messages, [StreamStart]);
    assert Step(c, Pending).messages[..|c.messages|] == c.messages;
  }

  /** As written, a `PENDING` frame that arrives during a stream opens a
      second stream message: the invariant then fails. */
  lemma PendingWhileStreaming(c: Chat)
    requires HasStream(c.messages)
    ensures !AtMostOneStream(Step(c, Pending).messages)
  {
    PendingAppendsStream(c);
    StreamCountZero(c.messages);
  }

  /** `END` keeps every text, finalizes every stream message and clears busy. */
  lemma EndFinalizes(c: Chat)
    ensures var r := Step(c, End);
      !r.isLoading && !HasStream(r.messages) && |r.messages| == |c.messages| &&
      forall i :: 0 <= i < |c.messages| ==>
        r.messages[i].text == c.messages[i].text && r.messages[i].sender == c.messages[i].sender &&
        r.messages[i].language == c.messages[i].language
  {
    StreamCountZero(Step(c, End).messages);
  }

  /** Finalizing twice is finalizing once. */
  lemma EndIdempotent(c: Chat)
    ensures Step(Step(c, End), End) == Step(c, End)
  {
    var once := FinalizeStream(c.messages);
    StreamCountZero(once);
    NoStreamUnchanged(once, "");
  }

  /** `ERROR` leaves no loading placeholder and no stream message, clears
      busy, shows the warning exactly where the source puts it: in place of
      the stream message when there is one, appended otherwise. */
  lemma ErrorReports(c: Chat, message: Option<string>)
    ensures var r := Step(c, Error(message));
      var base := DropLoading(c.messages);
      var notice := WarningPrefix + ErrorText(message);
      !r.isLoading && !HasStream(r.messages) &&
      (forall i :: 0 <= i < |r.messages| ==> r.messages[i].id != Loading) &&
      (HasStream(base) ==>
        (|r.messages| == |base| &&
         forall i :: 0 <= i < |base| ==>
           r.messages[i] == if IsStream(base[i]) then base[i].(text := notice, id := Unmarked) else base[i])) &&
      (!HasStream(base) ==> r.messages == base + [AiText(notice)])
  {
    var base := DropLoading(c.messages);
    var notice := WarningPrefix + ErrorText(message);
    var r := Step(c, Error(message));
    assert forall i :: 0 <= i < |base| ==> base[i] in c.messages && base[i].id != Loading;
    if HasStream(base) {
      StreamCountZero(r.messages);
    } else {
      StreamCountZero(base);
      StreamCountConcat(base, [AiText(notice)]);
      StreamCountZero(r.messages);
    }
  }

  /** `COMPLETED` appends one finalized AI message holding the review and
      clears busy; the stream count is unchanged. */
  lemma CompletedAppends(c: Chat, review: string)
    ensures var r := Step(c, Completed(review));
      !r.isLoading && |r.messages| == |c.messages| + 1 &&
      r.messages[..|c.messages|] == c.messages && r.messages[|c.messages|] == AiText(review) &&
      StreamCount(r.messages) == StreamCount(c.messages)
  {
    StreamCountConcat(c.messages, [AiText(review)]);
    assert Step(c, Completed(review)).messages[..|c.messages|] == c.messages;
  }

  /** A frame of unknown status changes nothing. */
  lemma UnknownIgnored(c: Chat, status: OtherStatus)
    ensures Step(c, Unknown(status)) == c
  {
  }

  /** Every frame keeps "at most one stream message", except `PENDING`
      during a stream (see PendingWhileStreaming). */
  lemma StepKeepsAtMostOneStream(c: Chat, e: Event)
    requires AtMostOneStream(c.messages)
    requires e.Pending? ==> !HasStream(c.messages)
    ensures AtMostOneStream(Step(c, e).messages)
  {
    match e
    case Pending =>
      PendingAppendsStream(c);
      StreamCountZero(c.messages);
    case Error(message) =>
      ErrorReports(c, message);
      StreamCountZero(Step(c, e).messages);
    case Completed(review) =>
      CompletedAppends(c, review);
    case _ =>
  }

  lemma {:induction false} RunConcat(c: Chat, a: seq<Event>, b: seq<Event>)
    ensures Run(c, a + b) == Run(Run(c, a), b)
    decreases |a|
  {
    if a == [] {
      assert a + b == b;
    } else {
      assert (a + b)[1..] == a[1..] + b;
      RunConcat(Step(c, a[0]), a[1..], b);
    }
  }

  /** One `DELTA` frame per fragment. */
  function DeltaFrames(parts: seq<string>): (es: seq<Event>)
    ensures |es| == |parts|
    ensures forall i :: 0 <= i < |parts| ==> es[i] == Delta(Some(parts[i]))
  {
    if parts == [] then [] else [Delta(Some(parts[0]))] + DeltaFrames(parts[1..])
  }

  function Concat(parts: seq<string>): (r: string) {
    if parts == [] then "" else parts[0] + Concat(parts[1..])
  }

  /** A `DELTA` frame without text, or with empty text, changes nothing. */
  lemma DeltaWithoutText(c: Chat)
    ensures Step(c, Delta(None)) == c && Step(c, Delta(Some(""))) == c
  {
    var r := AppendToStream(c.messages, "");
    forall i | 0 <= i < |c.messages|
      ensures r[i] == c.messages[i]
    {
      assert c.messages[i].text + "" == c.messages[i].text;
    }
  }

  /** Deltas arriving while `m` is the only stream message, wherever it
      stands in the log, extend exactly that message, by the fragments in
      order. */
  lemma {:induction false} DeltasAccumulate(pre: seq<Message>, m: Message, post: seq<Message>, busy: bool, parts: seq<string>)
    requires !HasStream(pre) && !HasStream(post) && IsStream(m)
    ensures Run(Chat(pre + [m] + post, busy), DeltaFrames(parts)) ==
      Chat(pre + [m.(text := m.text + Concat(parts))] + post, busy)
    decreases |parts|
  {
    if parts == [] {
      assert m.text + "" == m.text;
    } else {
      var m' := m.(text := m.text + parts[0]);
      AppendAround(pre, m, post, parts[0]);
      assert DeltaFrames(parts)[1..] == DeltaFrames(parts[1..]);
      DeltasAccumulate(pre, m', post, busy, parts[1..]);
      assert m.text + parts[0] + Concat(parts[1..]) == m.text + Concat(parts);
    }
  }

  /** Between stream-free neighbours, the `DELTA` map acts on `m` only. */
  lemma AppendAround(pre: seq<Message>, m: Message, post: seq<Message>, t: string)
    requires !HasStream(pre) && !HasStream(post)
    ensures AppendToStream(pre + [m] + post, t) == pre + [if IsStream(m) then m.(text := m.text + t) else m] + post
  {
    var log := pre + [m] + post;
    var r := AppendToStream(log, t);
    var want := pre + [if IsStream(m) then m.(text := m.text + t) else m] + post;
    forall i | 0 <= i < |log|
      ensures r[i] == want[i]
    {
      if i < |pre| {
        assert log[i] == pre[i] && want[i] == pre[i];
      } else if i > |pre| {
        assert log[i] == post[i - |pre| - 1] && want[i] == post[i - |pre| - 1];
      }
    }
  }

  /** Behind a stream-free prefix, the `END` map acts on the last message only. */
  lemma FinalizeSnoc(log: seq<Message>, m: Message)
    requires !HasStream(log)
    ensures FinalizeStream(log + [m]) == log + [if IsStream(m) then m.(id := Unmarked) else m]
  {
    var r := FinalizeStream(log + [m]);
    assert forall i :: 0 <= i < |log| ==> (log + [m])[i] == log[i];
    assert forall i :: 0 <= i < |log| ==> r[i] == log[i];
  }

  /** Behind a stream-free prefix, the `ERROR` map acts on the last message only. */
  lemma ReplaceSnoc(log: seq<Message>, m: Message, t: string)
    requires !HasStream(log)
    ensures ReplaceStream(log + [m], t) == log + [if IsStream(m) then m.(text := t, id := Unmarked) else m]
  {
    var r := ReplaceStream(log + [m], t);
    assert forall i :: 0 <= i < |log| ==> (log + [m])[i] == log[i];
    assert forall i :: 0 <= i < |log| ==> r[i] == log[i];
  }

  /** An `ERROR` behind a stream-free prefix whose last message is streaming
      turns that message into the finalized warning, in place. */
  lemma ErrorOnLastStream(log: seq<Message>, m: Message, busy: bool, message: Option<string>)
    requires !HasStream(log) && IsStream(m)
    ensures Step(Chat(log + [m], busy), Error(message)) ==
      Chat(DropLoading(log) + [m.(text := WarningPrefix + ErrorText(message), id := Unmarked)], false)
  {
    var base := DropLoading(log);
    DropLoadingSnoc(log, m);
    assert HasStream(base + [m]) by {
      assert IsStream((base + [m])[|base|]);
    }
    assert !HasStream(base) by {
      StreamCountZero(log);
      StreamCountZero(base);
    }
    ReplaceSnoc(base, m, WarningPrefix + ErrorText(message));
  }

  lemma RunOne(c: Chat, e: Event)
    ensures Run(c, [e]) == Step(c, e)
  {
    assert [e][1..] == [];
  }

  /** A `PENDING`, its deltas and `END`, started with no stream active, add
      exactly one finalized AI message holding the fragments joined, and
      leave busy off. */
  lemma StreamAssembles(c: Chat, parts: seq<string>)
    requires !HasStream(c.messages)
    ensures Run(c, [Pending] + DeltaFrames(parts) + [End]) == Chat(c.messages + [AiText(Concat(parts))], false)
  {
    var frames := DeltaFrames(parts);
    RunConcat(c, [Pending] + frames, [End]);
    RunConcat(c, [Pending], frames);
    RunOne(c, Pending);
    assert c.messages + [StreamStart] + [] == c.messages + [StreamStart];
    DeltasAccumulate(c.messages, StreamStart, [], true, parts);
    var last := StreamStart.(text := "" + Concat(parts));
    assert c.messages + [last] + [] == c.messages + [last];
    RunOne(Chat(c.messages + [last], true), End);
    FinalizeSnoc(c.messages, last);
    assert "" + Concat(parts) == Concat(parts);
  }

  /** `PENDING`, `DELTA "Hel"`, `DELTA "lo"`, `END`: one new message "Hello",
      busy true, true, true, then false. */
  lemma HappyPath(c: Chat)
    requires !HasStream(c.messages)
    ensures var c1 := Step(c, Pending);
      var c2 := Step(c1, Delta(Some("Hel")));
      var c3 := Step(c2, Delta(Some("lo")));
      var c4 := Step(c3, End);
      c1.isLoading && c2.isLoading && c3.isLoading && !c4.isLoading &&
      c4.messages == c.messages + [AiText("Hello")]
  {
    var log := c.messages;
    assert log + [StreamStart] + [] == log + [StreamStart];
    AppendAround(log, StreamStart, [], "Hel");
    assert log + [StreamStart.(text := "Hel")] + [] == log + [StreamStart.(text := "Hel")];
    AppendAround(log, StreamStart.(text := "Hel"), [], "lo");
    assert "" + "Hel" == "Hel" && "Hel" + "lo" == "Hello";
    FinalizeSnoc(log, StreamStart.(text := "Hello"));
  }

  /** A stream opened with no stream active and cut off by `ERROR`: whatever
      had been streamed, the partial reply becomes the finalized warning,
      loading placeholders are gone, busy ends off. */
  lemma StreamErrorReplacesPartial(c: Chat, part: string, message: Option<string>)
    requires !HasStream(c.messages)
    ensures Step(Step(Step(c, Pending), Delta(Some(part))), Error(message)) ==
      Chat(DropLoading(c.messages) + [AiText(WarningPrefix + ErrorText(message))], false)
  {
    var log := c.messages;
    var partial := StreamStart.(text := "" + part);
    assert Step(Step(c, Pending), Delta(Some(part))) == Chat(log + [partial], true) by {
      assert log + [StreamStart] + [] == log + [StreamStart];
      AppendAround(log, StreamStart, [], part);
    }
    ErrorOnLastStream(log, partial, true, message);
  }

  /** `PENDING`, `DELTA "par"`, `ERROR "timeout"`: one finalized
      "⚠️ timeout" in place of the partial reply, busy off. */
  lemma MidStreamError(c: Chat)
    requires !HasStream(c.messages)
    ensures Step(Step(Step(c, Pending), Delta(Some("par"))), Error(Some("timeout"))) ==
      Chat(DropLoading(c.messages) + [AiText(WarningPrefix + "timeout")], false)
  {
    StreamErrorReplacesPartial(c, "par", Some("timeout"));
  }

  lemma {:induction false} DropLoadingSnoc(log: seq<Message>, m: Message)
    requires m.id != Loading
    ensures DropLoading(log + [m]) == DropLoading(log) + [m]
    decreases |log|
  {
    if log == [] {
      assert [] + [m] == [m];
      assert [m][1..] == [];
    } else {
      assert (log + [m])[1..] == log[1..] + [m];
      DropLoadingSnoc(log[1..], m);
    }
  }

  /** A lone `COMPLETED {review: "R"}` adds one finalized message "R". */
  lemma LegacyCompleted(c: Chat)
    ensures Run(c, [Completed("R")]) == Chat(c.messages + [AiText("R")], false)
  {
  }
}
