/**
 * What a provider demands of a conversation: every assistant message that
 * calls tools is followed at once by one result per call, in call order, and
 * results occur nowhere else.
 */
module Transcript {
  import opened Foundation
  import opened Model

  predicate Answers(call: ToolCall, m: ModelMessage) {
    m.Tool? && m.toolCallId == call.id && m.toolName == call.name
  }

  function CallsOf(m: ModelMessage): seq<ToolCall> {
    if m.Assistant? then m.message.toolCalls else []
  }

  /** The calls of message `i` are answered by the messages right after it. */
  predicate AnsweredAt(ms: seq<ModelMessage>, i: nat)
    requires i < |ms|
  {
    var calls := CallsOf(ms[i]);
    && i + |calls| < |ms|
    && forall k | 0 <= k < |calls| :: Answers(calls[k], ms[i + 1 + k])
  }

  /** Message `j` lies in the run of results that message `i` asks for. */
  predicate ResultOf(ms: seq<ModelMessage>, i: nat, j: nat)
    requires i < |ms|
  {
    i < j <= i + |CallsOf(ms[i])|
  }

  ghost predicate Paired(ms: seq<ModelMessage>) {
    && (forall i | 0 <= i < |ms| :: AnsweredAt(ms, i))
    && (forall j | 0 <= j < |ms| && ms[j].Tool? :: exists i | 0 <= i < j :: ResultOf(ms, i, j))
  }

  // ---- The same demand as a left-to-right scan --------------------------

  /** Calls still waiting for a result after one more message, or `None` if it may not come now. */
  function Advance(waiting: seq<ToolCall>, m: ModelMessage): Option<seq<ToolCall>> {
    if m.Tool? then
      if waiting != [] && Answers(waiting[0], m) then Some(waiting[1..]) else None
    else
      if waiting == [] then Some(CallsOf(m)) else None
  }

  function Scan(waiting: seq<ToolCall>, ms: seq<ModelMessage>): Option<seq<ToolCall>>
    decreases |ms|
  {
    if ms == [] then Some(waiting)
    else
      match Advance(waiting, ms[0])
      case None => None
      case Some(rest) => Scan(rest, ms[1..])
  }

  predicate Balanced(ms: seq<ModelMessage>) {
    Scan([], ms) == Some([])
  }

  lemma {:induction false} ScanConcat(waiting: seq<ToolCall>, a: seq<ModelMessage>, b: seq<ModelMessage>)
    ensures Scan(waiting, a + b) == match Scan(waiting, a) case None => None case Some(rest) => Scan(rest, b)
    decreases |a|
  {
    var ab := a + b;
    if a == [] {
      assert ab == b;
    } else {
      assert ab[0] == a[0] && ab[1..] == a[1..] + b;
      if Advance(waiting, a[0]).Some? {
        ScanConcat(Advance(waiting, a[0]).value, a[1..], b);
      }
    }
  }

  lemma ScanSnoc(waiting: seq<ToolCall>, ms: seq<ModelMessage>, m: ModelMessage)
    ensures Scan(waiting, ms + [m]) == match Scan(waiting, ms) case None => None case Some(rest) => Advance(rest, m)
  {
    ScanConcat(waiting, ms, [m]);
    forall rest: seq<ToolCall>
      ensures Scan(rest, [m]) == Advance(rest, m)
    {
      assert [m][1..] == [];
    }
  }

  /** One answer per waiting call leaves none waiting. */
  lemma {:induction false} AnswersSettle(waiting: seq<ToolCall>, ms: seq<ModelMessage>)
    requires |waiting| == |ms| && forall k | 0 <= k < |ms| :: Answers(waiting[k], ms[k])
    ensures Scan(waiting, ms) == Some([])
    decreases |ms|
  {
    if ms != [] {
      AnswersSettle(waiting[1..], ms[1..]);
    }
  }

  /** Cutting a balanced conversation before anything but a result leaves two balanced parts. */
  lemma CutIsBalanced(a: seq<ModelMessage>, b: seq<ModelMessage>)
    requires Balanced(a + b) && (b == [] || !b[0].Tool?)
    ensures Balanced(a) && Balanced(b)
  {
    ScanConcat([], a, b);
  }

  /** Putting balanced parts together is balanced. */
  lemma JoinIsBalanced(a: seq<ModelMessage>, b: seq<ModelMessage>)
    requires Balanced(a) && Balanced(b)
    ensures Balanced(a + b)
  {
    ScanConcat([], a, b);
  }

  // ---- The two descriptions agree ---------------------------------------

  predicate Answered(waiting: seq<ToolCall>, ms: seq<ModelMessage>) {
    |waiting| <= |ms| && forall k | 0 <= k < |waiting| :: Answers(waiting[k], ms[k])
  }

  lemma PairedDropsBlock(ms: seq<ModelMessage>)
    requires ms != [] && Paired(ms)
    ensures !ms[0].Tool? && Answered(CallsOf(ms[0]), ms[1..]) && Paired(ms[1 + |CallsOf(ms[0])|..])
  {
    assert AnsweredAt(ms, 0);
    var n := |CallsOf(ms[0])|;
    var rest := ms[1 + n..];
    forall k | 0 <= k < n
      ensures Answers(CallsOf(ms[0])[k], ms[1..][k])
    {
      assert Answers(CallsOf(ms[0])[k], ms[0 + 1 + k]);
    }
    forall i | 0 <= i < |rest|
      ensures AnsweredAt(rest, i)
    {
      assert AnsweredAt(ms, 1 + n + i);
      forall k | 0 <= k < |CallsOf(rest[i])|
        ensures Answers(CallsOf(rest[i])[k], rest[i + 1 + k])
      {
        assert Answers(CallsOf(rest[i])[k], ms[(1 + n + i) + 1 + k]);
      }
    }
    forall i | 0 < i <= n
      ensures CallsOf(ms[i]) == []
    {
      assert Answers(CallsOf(ms[0])[i - 1], ms[0 + 1 + (i - 1)]);
    }
    forall j | 0 <= j < |rest| && rest[j].Tool?
      ensures exists i | 0 <= i < j :: ResultOf(rest, i, j)
    {
      var j' := 1 + n + j;
      assert ms[j'].Tool?;
      var i' :| 0 <= i' < j' && ResultOf(ms, i', j');
      assert i' >= 1 + n;
      assert ResultOf(rest, i' - 1 - n, j);
    }
  }

  lemma PairedAddsBlock(ms: seq<ModelMessage>)
    requires ms != [] && !ms[0].Tool?
    requires Answered(CallsOf(ms[0]), ms[1..]) && Paired(ms[1 + |CallsOf(ms[0])|..])
    ensures Paired(ms)
  {
    var n := |CallsOf(ms[0])|;
    var rest := ms[1 + n..];
    forall i | 0 <= i < |ms|
      ensures AnsweredAt(ms, i)
    {
      if i > n {
        assert AnsweredAt(rest, i - 1 - n);
        forall k | 0 <= k < |CallsOf(ms[i])|
          ensures Answers(CallsOf(ms[i])[k], ms[i + 1 + k])
        {
          assert Answers(CallsOf(ms[i])[k], rest[(i - 1 - n) + 1 + k]);
        }
      } else if i > 0 {
        assert Answers(CallsOf(ms[0])[i - 1], ms[1..][i - 1]);
      } else {
        forall k | 0 <= k < n
          ensures Answers(CallsOf(ms[0])[k], ms[0 + 1 + k])
        {
          assert Answers(CallsOf(ms[0])[k], ms[1..][k]);
        }
      }
    }
    forall j | 0 <= j < |ms| && ms[j].Tool?
      ensures exists i | 0 <= i < j :: ResultOf(ms, i, j)
    {
      if j <= n {
        assert ResultOf(ms, 0, j);
      } else {
        assert rest[j - 1 - n].Tool?;
        var i :| 0 <= i < j - 1 - n && ResultOf(rest, i, j - 1 - n);
        assert ResultOf(ms, 1 + n + i, j);
      }
    }
  }

  /** From any point of the scan: the waiting calls are answered first, and the rest is paired. */
  lemma {:induction false} ScanIffPaired(waiting: seq<ToolCall>, ms: seq<ModelMessage>)
    ensures Scan(waiting, ms) == Some([]) <==> Answered(waiting, ms) && Paired(ms[|waiting|..])
    decreases |ms|
  {
    if ms == [] {
      assert |waiting| == 0 ==> ms[0..] == [];
    } else if waiting == [] {
      assert ms[0..] == ms;
      if ms[0].Tool? {
        assert Paired(ms) ==> false by {
          if Paired(ms) {
            PairedDropsBlock(ms);
          }
        }
      } else {
        var n := |CallsOf(ms[0])|;
        ScanIffPaired(CallsOf(ms[0]), ms[1..]);
        if n < |ms| {
          assert ms[1..][n..] == ms[1 + n..];
        }
        if Paired(ms) {
          PairedDropsBlock(ms);
        }
        if Answered(CallsOf(ms[0]), ms[1..]) && Paired(ms[1 + n..]) {
          PairedAddsBlock(ms);
        }
      }
    } else if Advance(waiting, ms[0]).Some? {
      ScanIffPaired(waiting[1..], ms[1..]);
      ShiftAnswered(waiting, ms);
      if |waiting| <= |ms| {
        assert ms[1..][|waiting[1..]|..] == ms[|waiting|..];
      }
    }
  }

  lemma ShiftAnswered(waiting: seq<ToolCall>, ms: seq<ModelMessage>)
    requires waiting != [] && ms != [] && Answers(waiting[0], ms[0])
    ensures Answered(waiting, ms) <==> Answered(waiting[1..], ms[1..])
  {
    if Answered(waiting[1..], ms[1..]) {
      forall k | 0 <= k < |waiting|
        ensures Answers(waiting[k], ms[k])
      {
        if k > 0 {
          assert Answers(waiting[1..][k - 1], ms[1..][k - 1]);
        }
      }
    }
  }

  /** The scan accepts exactly the conversations whose calls and results are paired. */
  lemma BalancedIffPaired(ms: seq<ModelMessage>)
    ensures Balanced(ms) <==> Paired(ms)
  {
    ScanIffPaired([], ms);
    assert ms[0..] == ms;
  }
}
