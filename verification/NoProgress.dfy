/**
  The guard that ends a run which keeps repeating one tool turn
  (packages/agent/src/no-progress.ts, packages/agent/src/agent-loop.ts).
 */
module NoProgress {
  import opened Wrappers
  import opened Transcript

  const REPEAT_LIMIT := 3

  /** The actions and outcomes of a tool turn; ids, prose and usage do not count. */
  datatype Fingerprint = Fingerprint(
    stopReason: StopReason, errorMessage: Option<string>,
    actions: seq<(string, string)>, outcomes: seq<(string, bool, string)>)

  function Actions(calls: seq<ToolCall>): seq<(string, string)> {
    seq(|calls|, i requires 0 <= i < |calls| => (calls[i].name, calls[i].arguments))
  }

  function Outcomes(results: seq<Message>): seq<(string, bool, string)>
    requires forall r | r in results :: r.ToolResult?
  {
    seq(|results|, i requires 0 <= i < |results| => (results[i].toolName, results[i].isError, results[i].output))
  }

  function FingerprintOf(message: Message, results: seq<Message>): Fingerprint
    requires message.Assistant? && forall r | r in results :: r.ToolResult?
  {
    Fingerprint(message.stopReason, message.errorMessage, Actions(CallsOf(message.content)), Outcomes(results))
  }

  /** What a run leaves behind for the guard: a tool turn, or something that breaks a series of them. */
  datatype Mark = Reset | Turn(fingerprint: Fingerprint)

  /** The number of equal tool turns that end the history. */
  function Repeats(history: seq<Mark>): nat {
    var n := |history|;
    if n == 0 || history[n - 1] == Reset then 0
    else if n > 1 && history[n - 2] == history[n - 1] then 1 + Repeats(history[..n - 1])
    else 1
  }

  function LastFingerprint(history: seq<Mark>): Option<Fingerprint> {
    if history != [] && history[|history| - 1].Turn? then Some(history[|history| - 1].fingerprint) else None
  }

  lemma AddTurn(history: seq<Mark>, f: Fingerprint)
    ensures Repeats(history + [Turn(f)]) == if LastFingerprint(history) == Some(f) then Repeats(history) + 1 else 1
    ensures LastFingerprint(history + [Turn(f)]) == Some(f)
  {
    assert (history + [Turn(f)])[..|history|] == history;
  }

  /** The same tool turn three times in a row, with nothing in between. */
  ghost predicate Stuck(history: seq<Mark>) {
    var n := |history|;
    n >= REPEAT_LIMIT && history[n - 1].Turn? &&
    forall i | n - REPEAT_LIMIT <= i < n :: history[i] == history[n - 1]
  }

  /** The loop was never stuck before this point, so it may have gone on until here. */
  ghost predicate NeverStuckBefore(history: seq<Mark>) {
    forall k | 0 <= k < |history| :: !Stuck(history[..k])
  }

  /** The counter sees exactly the histories that are stuck. */
  lemma {:induction false} RepeatsSeeStuck(history: seq<Mark>)
    ensures Repeats(history) >= REPEAT_LIMIT <==> Stuck(history)
  {
    var n := |history|;
    if n > 1 && history[n - 1].Turn? && history[n - 2] == history[n - 1] {
      var h := history[..n - 1];
      assert Repeats(h) >= 1;
      if n > 2 && h[n - 3] == h[n - 2] {
        assert Repeats(h) == 1 + Repeats(h[..n - 2]);
        assert h[..n - 2][n - 3].Turn?;
        assert Stuck(history);
      } else {
        assert Repeats(history) == 2;
        assert n > 2 ==> history[n - 3] != history[n - 1];
      }
    }
  }

  lemma Continue(history: seq<Mark>, mark: Mark)
    requires NeverStuckBefore(history) && !Stuck(history)
    ensures NeverStuckBefore(history + [mark])
  {
    forall k | 0 <= k < |history + [mark]| ensures !Stuck((history + [mark])[..k]) {
      assert (history + [mark])[..k] == history[..k];
      assert k == |history| ==> history[..k] == history;
    }
  }

  /** A provider and tools that repeat themselves are stopped within three turns. */
  lemma ConstantTurnsAreShort(history: seq<Mark>, f: Fingerprint)
    requires NeverStuckBefore(history) && forall i | 0 <= i < |history| :: history[i] == Turn(f)
    ensures |history| <= REPEAT_LIMIT
  {
    assert |history| > REPEAT_LIMIT ==> Stuck(history[..REPEAT_LIMIT]);
  }

  /** No history holds four equal tool turns in a row. */
  lemma NoFourthRepeat(history: seq<Mark>, i: nat)
    requires NeverStuckBefore(history) && i + 3 < |history| && history[i].Turn?
    ensures !(history[i] == history[i + 1] == history[i + 2] == history[i + 3])
  {
    var h := history[..i + 3];
    assert !Stuck(h);
    assert h[i] == history[i] && h[i + 1] == history[i + 1] && h[i + 2] == history[i + 2];
  }
}
