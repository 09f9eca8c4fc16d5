/** Execution ARNs, console URLs and payload-bucket keys: every string that is taken apart again. */
module Naming {
  import opened Strings

  const STATE_MACHINE := ":stateMachine:"
  const EXECUTION := ":execution:"

  /** Python's `str.replace`, left to right. */
  function Replace(s: string, pat: string, with: string): string
    requires pat != []
    decreases |s|
  {
    var i := Find(s, pat);
    if i == -1 then s else s[..i] + with + Replace(s[i + |pat|..], pat, with)
  }

  function GenExecutionArn(base: string, workflow: string, name: string): string {
    Replace(base, STATE_MACHINE, EXECUTION) + workflow + ":" + name
  }

  /** `get_state_machine_arn_and_execution_name`. */
  function SplitExecutionArn(arn: string): (string, string) {
    var i := Last(arn, ':');
    (Replace(if i == -1 then "" else arn[..i], EXECUTION, STATE_MACHINE), arn[i + 1..])
  }

  lemma ExecutionChars(s: string, i: int)
    requires OccursAt(s, EXECUTION, i)
    ensures s[i] == ':' && s[i + 10] == ':' && forall k | i < k < i + 10 :: s[k] != ':'
  {
    assert forall k {:trigger s[k]} | i <= k < i + 11 :: s[i..i + 11][k - i] == s[k];
    assert forall n | 0 < n < 10 :: EXECUTION[n] != ':';
  }

  /** Text without a colon cannot complete an occurrence. */
  lemma ExecutionEndsInColon(s: string, w: string, i: int)
    requires ':' !in w && OccursAt(s + w, EXECUTION, i)
    ensures OccursAt(s, EXECUTION, i)
  {
    ExecutionChars(s + w, i);
    assert forall k {:trigger (s + w)[k]} | |s| <= k < |s + w| :: (s + w)[k] == w[k - |s|];
    assert (s + w)[i..i + 11] == s[i..i + 11];
  }

  /** An occurrence that starts in front of another ends no later than the other's first colon. */
  lemma EarlierExecution(head: string, tail: string, i: int)
    requires OccursAt(head + EXECUTION + tail, EXECUTION, i) && i < |head|
    ensures OccursAt(head + ":", EXECUTION, i)
  {
    var s := head + EXECUTION + tail;
    ExecutionChars(s, i);
    assert s[|head|] == ':';
    assert s[i..i + 11] == (head + ":")[i..i + 11];
  }

  /** Behind a head that contains none, the first `:execution:` is the one written there. */
  lemma FirstExecution(head: string, tail: string)
    requires !Contains(head + ":", EXECUTION)
    ensures Find(head + EXECUTION + tail, EXECUTION) == |head|
  {
    var s := head + EXECUTION + tail;
    assert s == head + (EXECUTION + tail);
    assert OccursAt(s, EXECUTION, |head|);
    if Find(s, EXECUTION) < |head| {
      EarlierExecution(head, tail, Find(s, EXECUTION));
    }
  }

  lemma PartsHaveNoExecution(head: string, tail: string)
    requires !Contains(head + STATE_MACHINE + tail, EXECUTION)
    ensures !Contains(head + ":", EXECUTION) && !Contains(tail, EXECUTION)
  {
    var base := head + STATE_MACHINE + tail;
    assert base == (head + ":") + (STATE_MACHINE[1..] + tail);
    OccursInside(head + ":", STATE_MACHINE[1..] + tail, EXECUTION);
    OccursInside(head + STATE_MACHINE, tail, EXECUTION);
  }

  lemma {:induction false} ReplaceFirstExecution(head: string, rest: string)
    requires !Contains(head + ":", EXECUTION)
    ensures Replace(head + EXECUTION + rest, EXECUTION, STATE_MACHINE) ==
            head + STATE_MACHINE + Replace(rest, EXECUTION, STATE_MACHINE)
  {
    var s := head + EXECUTION + rest;
    FirstExecution(head, rest);
    assert s[..|head|] == head && s[|head| + |EXECUTION|..] == rest;
  }

  lemma {:induction false} NothingToRename(base: string, w: string)
    requires !Contains(base, EXECUTION) && ':' !in w
    ensures Replace(base + w, EXECUTION, STATE_MACHINE) == base + w
  {
    forall k ensures OccursAt(base + w, EXECUTION, k) ==> OccursAt(base, EXECUTION, k) {
      if OccursAt(base + w, EXECUTION, k) { ExecutionEndsInColon(base, w, k); }
    }
  }

  /** Renaming state machines to executions and back, with a colon-free workflow name appended in between. */
  lemma {:induction false} ReplaceRoundTrip(base: string, w: string)
    requires !Contains(base, EXECUTION) && ':' !in w
    ensures Replace(Replace(base, STATE_MACHINE, EXECUTION) + w, EXECUTION, STATE_MACHINE) == base + w
    decreases |base|
  {
    var i := Find(base, STATE_MACHINE);
    if i == -1 {
      NothingToRename(base, w);
    } else {
      var head, tail := base[..i], base[i + |STATE_MACHINE|..];
      assert base == head + STATE_MACHINE + tail;
      PartsHaveNoExecution(head, tail);
      ReplaceRoundTrip(tail, w);
      RenameStep(head, tail, Replace(tail, STATE_MACHINE, EXECUTION), w);
    }
  }

  lemma {:induction false} RenameStep(head: string, tail: string, there: string, w: string)
    requires !Contains(head + ":", EXECUTION)
    requires Replace(there + w, EXECUTION, STATE_MACHINE) == tail + w
    ensures Replace(head + EXECUTION + there + w, EXECUTION, STATE_MACHINE) == head + STATE_MACHINE + tail + w
  {
    assert head + EXECUTION + there + w == head + EXECUTION + (there + w);
    ReplaceFirstExecution(head, there + w);
    assert head + STATE_MACHINE + (tail + w) == head + STATE_MACHINE + tail + w;
  }

  /** An execution ARN splits back into its state machine and name exactly when the name has no colon. */
  lemma ArnRoundTripIff(base: string, workflow: string, name: string)
    requires !Contains(base, EXECUTION) && ':' !in workflow
    ensures SplitExecutionArn(GenExecutionArn(base, workflow, name)) == (base + workflow, name) <==> ':' !in name
  {
    var head := Replace(base, STATE_MACHINE, EXECUTION) + workflow;
    var arn := GenExecutionArn(base, workflow, name);
    assert arn == head + [':'] + name;
    AfterLastIff(head, ':', name);
    ReplaceRoundTrip(base, workflow);
    if ':' !in name {
      LastIs(arn, ':', |head|);
      assert arn[..|head|] == head;
    }
  }

  /** The ARN of an execution under a base with one state-machine marker, spelled out. */
  lemma {:induction false} ArnText(head: string, tail: string, workflow: string, name: string)
    requires Find(head + ":stateMachine:" + tail, ":stateMachine:") == |head| && !Contains(tail, ":stateMachine:")
    ensures GenExecutionArn(head + ":stateMachine:" + tail, workflow, name) ==
            head + ":execution:" + tail + workflow + ":" + name
  {
    var base := head + STATE_MACHINE + tail;
    assert base[..|head|] == head && base[|head| + |STATE_MACHINE|..] == tail;
    assert Replace(tail, STATE_MACHINE, EXECUTION) == tail;
  }

  function ExecutionUrl(arn: string, region: string): string {
    "https://" + region + ".console.aws.amazon.com/states/home?region=" + region + "#/v2/executions/details/" + arn
  }

  /** `rpartition(c)[2]`, and `split(c)[-1]`. */
  function AfterLast(s: string, c: char): string {
    s[Last(s, c) + 1..]
  }

  lemma AfterLastIff(head: string, c: char, tail: string)
    ensures AfterLast(head + [c] + tail, c) == tail <==> c !in tail
  {
    var s := head + [c] + tail;
    assert s[|head| + 1..] == tail;
    if c !in tail {
      LastIs(s, c, |head|);
    }
  }

  /** The console URL stored for a record gives back the ARN exactly when the ARN has no slash. */
  lemma UrlRoundTripIff(arn: string, region: string)
    ensures AfterLast(ExecutionUrl(arn, region), '/') == arn <==> '/' !in arn
  {
    var head := "https://" + region + ".console.aws.amazon.com/states/home?region=" + region
                + "#/v2/executions/details";
    assert ExecutionUrl(arn, region) == head + ['/'] + arn;
    AfterLastIff(head, '/', arn);
  }

  /** `split("_")[0]`, which adoption applies to the recorded ARN. */
  function BeforeUnderscore(s: string): string {
    if First(s, '_') == -1 then s else s[..First(s, '_')]
  }

  /** Adoption reads the recorded ARN whole exactly when it has no underscore. */
  lemma AdoptionReadsWholeArnIff(arn: string)
    ensures BeforeUnderscore(arn) == arn <==> '_' !in arn
  {
  }

  datatype File = InputFile | OutputFile

  function FileName(file: File): string {
    match file
    case InputFile => "input.json"
    case OutputFile => "output.json"
  }

  function ExecutionPrefix(root: string, payload: string, execution: string): string {
    root + "/executions/" + payload + "/" + execution
  }

  function ExecutionKey(root: string, payload: string, execution: string, file: File): string {
    ExecutionPrefix(root, payload, execution) + "/" + FileName(file)
  }

  /** Where an execution keeps its input and output, spelled out. */
  lemma ObjectNames(root: string, payload: string, execution: string)
    ensures var folder := root + "/executions/" + payload + "/" + execution;
            && ExecutionKey(root, payload, execution, InputFile) == folder + "/" + "input.json"
            && ExecutionKey(root, payload, execution, OutputFile) == folder + "/" + "output.json"
  {
  }

  function TmpPrefix(root: string): string {
    root + "/tmp"
  }

  lemma CutAtLastSlash(a: string, x: string, b: string, y: string)
    requires '/' !in x && '/' !in y && a + "/" + x == b + "/" + y
    ensures a == b && x == y
  {
    AfterLastIff(a, '/', x);
    AfterLastIff(b, '/', y);
    assert (a + "/" + x)[..|a|] == a && (b + "/" + y)[..|b|] == b;
  }

  /** Slash-free execution ids never share an object, between payloads or between input and output. */
  lemma ExecutionKeysAreDistinct(root: string, p1: string, e1: string, f1: File, p2: string, e2: string, f2: File)
    requires '/' !in e1 && '/' !in e2
    ensures ExecutionKey(root, p1, e1, f1) == ExecutionKey(root, p2, e2, f2) <==> p1 == p2 && e1 == e2 && f1 == f2
  {
    if ExecutionKey(root, p1, e1, f1) == ExecutionKey(root, p2, e2, f2) {
      CutAtLastSlash(ExecutionPrefix(root, p1, e1), FileName(f1), ExecutionPrefix(root, p2, e2), FileName(f2));
      CutAtLastSlash(root + "/executions/" + p1, e1, root + "/executions/" + p2, e2);
      assert (root + "/executions/" + p1)[|root| + 12..] == p1 && (root + "/executions/" + p2)[|root| + 12..] == p2;
      assert FileName(f1)[0] == FileName(f2)[0];
    }
  }

  /** The lifecycle rule on the tmp prefix never reaches an execution's objects. */
  lemma ExecutionKeysAreNotTemporary(root: string, payload: string, execution: string, file: File)
    ensures !(TmpPrefix(root) <= ExecutionKey(root, payload, execution, file))
  {
    assert ExecutionKey(root, payload, execution, file)[|root| + 1] == 'e';
    assert TmpPrefix(root)[|root| + 1] == 't';
  }
}
