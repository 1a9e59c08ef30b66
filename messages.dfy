/** The conversation log: messages, their stream marker, and the
    "at most one streaming message" count. */
module Messages {
  import opened Wrappers

  datatype Sender = User | Ai

  /** A message's `id`: absent, `'stream'` (the reply still receiving deltas)
      or `'loading'` (a placeholder bubble). */
  datatype Marker = Unmarked | Stream | Loading

  datatype Message = Message(text: string, sender: Sender, language: Option<string>, id: Marker)

  /** A finalized AI message carrying `text`. */
  function AiText(text: string): Message {
    Message(text, Ai, None, Unmarked)
  }

  predicate IsStream(m: Message) {
    m.id == Stream
  }

  /** `log.some(m => m.id === 'stream')`. */
  predicate HasStream(log: seq<Message>) {
    exists i :: 0 <= i < |log| && IsStream(log[i])
  }

  /** How many messages of `log` carry the stream marker. */
  function StreamCount(log: seq<Message>): nat {
    if log == [] then 0 else (if IsStream(log[0]) then 1 else 0) + StreamCount(log[1..])
  }

  predicate AtMostOneStream(log: seq<Message>) {
    StreamCount(log) <= 1
  }

  lemma {:induction false} StreamCountZero(log: seq<Message>)
    ensures StreamCount(log) == 0 <==> !HasStream(log)
  {
    if log != [] {
      StreamCountZero(log[1..]);
      if !IsStream(log[0]) && HasStream(log) {
        var i :| 0 <= i < |log| && IsStream(log[i]);
        assert IsStream(log[1..][i - 1]);
      }
      if HasStream(log[1..]) {
        var i :| 0 <= i < |log[1..]| && IsStream(log[1..][i]);
        assert IsStream(log[i + 1]);
      }
    }
  }

  lemma {:induction false} StreamCountCons(m: Message, log: seq<Message>)
    ensures StreamCount([m] + log) == (if IsStream(m) then 1 else 0) + StreamCount(log)
  {
    assert ([m] + log)[1..] == log;
  }

  lemma {:induction false} StreamCountConcat(a: seq<Message>, b: seq<Message>)
    ensures StreamCount(a + b) == StreamCount(a) + StreamCount(b)
    decreases |a|
  {
    if a != [] {
      assert (a + b)[1..] == a[1..] + b;
      StreamCountConcat(a[1..], b);
    } else {
      assert a + b == b;
    }
  }

  /** The count is the number of marked positions: at most one stream
      message means no two distinct positions are both marked. */
  lemma {:induction false} AtMostOneStreamPositions(log: seq<Message>)
    ensures AtMostOneStream(log) <==>
      forall i, j :: 0 <= i < j < |log| && IsStream(log[i]) ==> !IsStream(log[j])
  {
    if log != [] {
      AtMostOneStreamPositions(log[1..]);
      StreamCountZero(log[1..]);
      if AtMostOneStream(log) {
        forall i, j | 0 <= i < j < |log| && IsStream(log[i]) ensures !IsStream(log[j]) {
          if i == 0 {
            assert log[j] == log[1..][j - 1];
          } else {
            assert log[i] == log[1..][i - 1] && log[j] == log[1..][j - 1];
          }
        }
      } else {
        if IsStream(log[0]) {
          var j :| 0 <= j < |log[1..]| && IsStream(log[1..][j]);
          assert IsStream(log[j + 1]);
        } else {
          var i, j :| 0 <= i < j < |log[1..]| && IsStream(log[1..][i]) && IsStream(log[1..][j]);
          assert IsStream(log[i + 1]) && IsStream(log[j + 1]);
        }
      }
    }
  }
}
