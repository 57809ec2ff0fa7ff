/** The field trial string of api/field_trials.cc: key '/' value '/' pairs, parsed by a
    loop whose checks abort the program.  An aborted parse is a `Failure` naming the check. */
module FieldTrials {

  datatype ParseError =
    | MissingKeySeparator
    | EmptyKey
    | MissingValue
    | MissingTerminator
    | EmptyValue
    | InputNotConsumed

  datatype Result<T> = Success(value: T) | Failure(error: ParseError)

  datatype Trial = Trial(key: string, value: string)

  const NPOS := -1

  /** std::string::find for '/'. */
  function FindSlash(s: string, start: nat): (pos: int)
    requires start <= |s|
    ensures pos == NPOS || (start <= pos < |s| && s[pos] == '/')
    decreases |s| - start
  {
    if start == |s| then NPOS
    else if s[start] == '/' then start
    else FindSlash(s, start + 1)
  }

  lemma {:induction false} NoSlashBefore(s: string, start: nat)
    requires start <= |s| && FindSlash(s, start) != NPOS
    ensures '/' !in s[start..FindSlash(s, start)]
    decreases |s| - start
  {
    if s[start] != '/' {
      NoSlashBefore(s, start + 1);
      var pos := FindSlash(s, start);
      assert s[start..pos] == [s[start]] + s[start + 1..pos];
    }
  }

  // ---------------------------------------------------------------------
  // The grammar
  // ---------------------------------------------------------------------

  predicate IsField(f: string) {
    f != "" && '/' !in f
  }

  predicate WellFormed(trials: seq<Trial>) {
    forall i :: 0 <= i < |trials| ==> IsField(trials[i].key) && IsField(trials[i].value)
  }

  function PrintTrial(t: Trial): string {
    t.key + "/" + t.value + "/"
  }

  function Print(trials: seq<Trial>): string {
    if trials == [] then "" else PrintTrial(trials[0]) + Print(trials[1..])
  }

  /** The map a list stands for: the first occurrence of a key wins. */
  function FirstWins(trials: seq<Trial>): map<string, string> {
    if trials == [] then map[]
    else
      var last := trials[|trials| - 1];
      var before := FirstWins(trials[..|trials| - 1]);
      if last.key in before then before else before[last.key := last.value]
  }

  // ---------------------------------------------------------------------
  // One step of the parser
  // ---------------------------------------------------------------------

  /** What the loop body does at `start`: a pair and the next start, or the failing check. */
  function ParseTrial(s: string, start: nat): (r: Result<(Trial, int)>)
    requires start < |s|
    ensures r.Success? ==> start < r.value.1 <= |s|
  {
    var keyEnd := FindSlash(s, start);
    if keyEnd == NPOS then Failure(MissingKeySeparator)
    else if keyEnd == start then Failure(EmptyKey)
    else if keyEnd + 1 >= |s| then Failure(MissingValue)
    else
      var valueEnd := FindSlash(s, keyEnd + 1);
      if valueEnd == NPOS then Failure(MissingTerminator)
      else if valueEnd == keyEnd + 1 then Failure(EmptyValue)
      else Success((Trial(s[start..keyEnd], s[keyEnd + 1..valueEnd]), valueEnd + 1))
  }

  /** A step that succeeds has read exactly one well-formed printed pair. */
  lemma StepReadsPair(s: string, start: nat)
    requires start < |s|
    ensures var r := ParseTrial(s, start);
            r.Success? ==>
              && IsField(r.value.0.key) && IsField(r.value.0.value)
              && s[start..r.value.1] == PrintTrial(r.value.0)
  {
    var r := ParseTrial(s, start);
    if r.Success? {
      var keyEnd := FindSlash(s, start);
      var next := r.value.1;
      NoSlashBefore(s, start);
      NoSlashBefore(s, keyEnd + 1);
      assert s[start..next] ==
             s[start..keyEnd] + [s[keyEnd]] + s[keyEnd + 1..next - 1] + [s[next - 1]];
    }
  }

  lemma {:induction false} FirstSlash(s: string, start: nat, f: string)
    requires '/' !in f && start + |f| < |s|
    requires s[start..start + |f|] == f && s[start + |f|] == '/'
    ensures FindSlash(s, start) == start + |f|
    decreases |f|
  {
    if f != "" {
      assert s[start] == s[start..start + |f|][0] == f[0];
      assert s[start + 1..start + |f|] == f[1..];
      FirstSlash(s, start + 1, f[1..]);
    }
  }

  lemma SliceOfTail(s: string, start: nat, i: nat, j: nat)
    requires start <= |s| && i <= j <= |s| - start
    ensures s[start..][i..j] == s[start + i..start + j]
  {
  }

  lemma PairLayout(tail: string, t: Trial, rest: string)
    requires tail == PrintTrial(t) + rest
    ensures var k, v := |t.key|, |t.value|;
            && |tail| == k + v + 2 + |rest|
            && tail[0..k] == t.key && tail[k] == '/'
            && tail[k + 1..k + 1 + v] == t.value && tail[k + 1 + v] == '/'
  {
    var k := |t.key|;
    assert PrintTrial(t) == t.key + ("/" + t.value + "/");
    assert tail == t.key + ("/" + t.value + "/" + rest);
    assert tail == (t.key + "/") + (t.value + ("/" + rest));
  }

  /** Wherever a well-formed printed pair stands in the input, a step reads it. */
  lemma StepAcceptsPair(s: string, start: nat, t: Trial, rest: string)
    requires start <= |s| && s[start..] == PrintTrial(t) + rest
    requires IsField(t.key) && IsField(t.value)
    ensures start < |s| && ParseTrial(s, start) == Success((t, start + |PrintTrial(t)|))
  {
    hide PrintTrial, FindSlash;
    var k, v := |t.key|, |t.value|;
    PairLayout(s[start..], t, rest);
    assert |PrintTrial(t)| == k + v + 2 && |s| >= start + k + v + 2;
    assert s[start + k] == s[start..][k] && s[start + k + 1 + v] == s[start..][k + 1 + v];
    SliceOfTail(s, start, 0, k);
    SliceOfTail(s, start, k + 1, k + 1 + v);
    FirstSlash(s, start, t.key);
    FirstSlash(s, start + k + 1, t.value);
  }

  // ---------------------------------------------------------------------
  // Whole inputs
  // ---------------------------------------------------------------------

  /** All pairs from `start` on, or the first check that fails. */
  function ParseFrom(s: string, start: nat): Result<seq<Trial>>
    requires start <= |s|
    decreases |s| - start
  {
    if start == |s| then Success([])
    else
      match ParseTrial(s, start)
      case Failure(e) => Failure(e)
      case Success((t, next)) => Cons(t, ParseFrom(s, next))
  }

  function Cons(t: Trial, r: Result<seq<Trial>>): Result<seq<Trial>> {
    match r
    case Failure(e) => Failure(e)
    case Success(ts) => Success([t] + ts)
  }

  lemma {:induction false} ParseSound(s: string, start: nat)
    requires start <= |s|
    ensures var r := ParseFrom(s, start);
            r.Success? ==> WellFormed(r.value) && Print(r.value) == s[start..]
    decreases |s| - start
  {
    hide PrintTrial, ParseTrial;
    if start < |s| && ParseFrom(s, start).Success? {
      var (t, next) := ParseTrial(s, start).value;
      StepReadsPair(s, start);
      ParseSound(s, next);
      var rest := ParseFrom(s, next).value;
      assert ([t] + rest)[1..] == rest;
      assert s[start..] == s[start..next] + s[next..];
    }
  }

  lemma TailAfter(s: string, start: nat, p: string, q: string)
    requires start <= |s| && s[start..] == p + q
    ensures start + |p| <= |s| && s[start + |p|..] == q
  {
    assert s[start + |p|..] == s[start..][|p|..];
  }

  lemma ParseOnePair(s: string, start: nat, t: Trial, rest: string)
    requires start <= |s| && s[start..] == PrintTrial(t) + rest
    requires IsField(t.key) && IsField(t.value)
    ensures var next := start + |PrintTrial(t)|;
            next <= |s| && s[next..] == rest && ParseFrom(s, start) == Cons(t, ParseFrom(s, next))
  {
    hide PrintTrial, ParseTrial;
    TailAfter(s, start, PrintTrial(t), rest);
    StepAcceptsPair(s, start, t, rest);
  }

  lemma {:induction false} ParseComplete(s: string, start: nat, trials: seq<Trial>)
    requires start <= |s| && WellFormed(trials) && Print(trials) == s[start..]
    ensures ParseFrom(s, start) == Success(trials)
    decreases |trials|
  {
    hide PrintTrial, ParseTrial;
    if trials == [] {
      assert |s[start..]| == 0;
    } else {
      var t, rest := trials[0], trials[1..];
      ParseOnePair(s, start, t, Print(rest));
      ParseComplete(s, start + |PrintTrial(t)|, rest);
      assert [t] + rest == trials;
    }
  }

  /** Parsing is the inverse of printing. */
  lemma ParseExactly(s: string)
    ensures ParseFrom(s, 0).Success? <==> exists trials :: WellFormed(trials) && Print(trials) == s
    ensures forall trials :: WellFormed(trials) && Print(trials) == s ==> ParseFrom(s, 0) == Success(trials)
  {
    assert s[0..] == s;
    ParseSound(s, 0);
    forall trials | WellFormed(trials) && Print(trials) == s
      ensures ParseFrom(s, 0) == Success(trials)
    {
      ParseComplete(s, 0, trials);
    }
  }

  /** The result of the whole parse, given what was read so far and what remains. */
  // ---------------------------------------------------------------------
  // Which check fails
  // ---------------------------------------------------------------------

  /** What is wrong with the input from the first pair on that cannot be read. */
  ghost predicate Broken(rest: string, error: ParseError) {
    match error
    case MissingKeySeparator => rest != "" && '/' !in rest
    case EmptyKey => rest != "" && rest[0] == '/'
    case MissingValue => exists key :: IsField(key) && rest == key + "/"
    case MissingTerminator => exists key, value :: IsField(key) && IsField(value) && rest == key + "/" + value
    case EmptyValue => exists key, more :: IsField(key) && rest == key + "//" + more
    case InputNotConsumed => false
  }

  lemma {:induction false} NoSlashAtAll(s: string, start: nat)
    requires start <= |s| && FindSlash(s, start) == NPOS
    ensures '/' !in s[start..]
    decreases |s| - start
  {
    if start < |s| {
      NoSlashAtAll(s, start + 1);
      assert s[start..] == [s[start]] + s[start + 1..];
    }
  }

  lemma TrialBroken(s: string, start: nat)
    requires start < |s| && ParseTrial(s, start).Failure?
    ensures Broken(s[start..], ParseTrial(s, start).error)
  {
    hide FindSlash;
    var rest, k := s[start..], FindSlash(s, start);
    if k == NPOS {
      NoSlashAtAll(s, start);
    } else if k > start {
      NoSlashBefore(s, start);
      var key := s[start..k];
      assert IsField(key) && s[k] == '/';
      assert rest == key + "/" + s[k + 1..];
      if k + 1 >= |s| {
        assert s[k + 1..] == "";
        assert rest == key + "/";
      } else {
        var v := FindSlash(s, k + 1);
        if v == NPOS {
          NoSlashAtAll(s, k + 1);
          assert IsField(s[k + 1..]);
        } else {
          assert s[k + 1..] == "/" + s[k + 2..];
          assert rest == key + "//" + s[k + 2..];
        }
      }
    }
  }

  /** A refused input is a printed list of trials followed by something that breaks the check
      reported, and nothing else. */
  lemma {:induction false} FailureExplained(s: string, start: nat)
    requires start <= |s| && ParseFrom(s, start).Failure?
    ensures exists trials, rest ::
              && WellFormed(trials) && s[start..] == Print(trials) + rest
              && Broken(rest, ParseFrom(s, start).error)
    decreases |s| - start
  {
    hide ParseTrial, PrintTrial, Broken;
    if ParseTrial(s, start).Failure? {
      TrialBroken(s, start);
      assert Print([]) + s[start..] == s[start..];
    } else {
      var (t, next) := ParseTrial(s, start).value;
      StepReadsPair(s, start);
      FailureExplained(s, next);
      var trials, rest :| && WellFormed(trials) && s[next..] == Print(trials) + rest
                          && Broken(rest, ParseFrom(s, next).error);
      assert ([t] + trials)[1..] == trials;
      assert s[start..] == s[start..next] + s[next..];
      assert s[start..] == Print([t] + trials) + rest;
      assert WellFormed([t] + trials);
    }
  }

  function Continue(parsed: seq<Trial>, rest: Result<seq<Trial>>): Result<seq<Trial>> {
    match rest
    case Failure(e) => Failure(e)
    case Success(ts) => Success(parsed + ts)
  }

  lemma ContinueStart(rest: Result<seq<Trial>>)
    ensures Continue([], rest) == rest
  {
    if rest.Success? {
      assert [] + rest.value == rest.value;
    }
  }

  lemma ContinueStep(parsed: seq<Trial>, t: Trial, rest: Result<seq<Trial>>)
    ensures Continue(parsed, Cons(t, rest)) == Continue(parsed + [t], rest)
  {
    if rest.Success? {
      assert parsed + ([t] + rest.value) == parsed + [t] + rest.value;
    }
  }

  lemma FirstWinsAppend(parsed: seq<Trial>, t: Trial)
    ensures FirstWins(parsed + [t]) ==
            if t.key in FirstWins(parsed) then FirstWins(parsed) else FirstWins(parsed)[t.key := t.value]
  {
    assert (parsed + [t])[..|parsed|] == parsed;
  }

  /** Accepts precisely the printed well-formed lists, returns the first-wins map of any
      list that prints to the input, fails with the first check violated, and its last
      check never fires. */
  /** The input is a printed list of trials followed by something that breaks the check. */
  ghost predicate Refused(s: string, error: ParseError) {
    exists trials, rest :: WellFormed(trials) && s == Print(trials) + rest && Broken(rest, error)
  }

  lemma Refusal(s: string)
    ensures ParseFrom(s, 0).Failure? ==> Refused(s, ParseFrom(s, 0).error)
  {
    hide Broken;
    assert s[0..] == s;
    if ParseFrom(s, 0).Failure? {
      FailureExplained(s, 0);
    }
  }

  /** The outcome of reading a string, and the map of what was read. */
  function Read(s: string): Result<map<string, string>> {
    match ParseFrom(s, 0)
    case Failure(e) => Failure(e)
    case Success(trials) => Success(FirstWins(trials))
  }

  /** The loop of InsertIntoMap. */
  method ReadPairs(s: string) returns (r: Result<map<string, string>>)
    ensures r == Read(s)
  {
    var fieldStart := 0;
    var keyValueMap: map<string, string> := map[];
    ghost var parsed: seq<Trial> := [];
    ContinueStart(ParseFrom(s, 0));
    while fieldStart < |s|
      invariant fieldStart <= |s|
      invariant ParseFrom(s, 0) == Continue(parsed, ParseFrom(s, fieldStart))
      invariant keyValueMap == FirstWins(parsed)
      decreases |s| - fieldStart
    {
      var separatorPos := FindSlash(s, fieldStart);
      if separatorPos == NPOS {
        return Failure(MissingKeySeparator);
      }
      if separatorPos <= fieldStart {
        return Failure(EmptyKey);
      }
      var key := s[fieldStart..separatorPos];
      ghost var start := fieldStart;
      fieldStart := separatorPos + 1;

      if fieldStart >= |s| {
        return Failure(MissingValue);
      }
      separatorPos := FindSlash(s, fieldStart);
      if separatorPos == NPOS {
        return Failure(MissingTerminator);
      }
      if separatorPos <= fieldStart {
        return Failure(EmptyValue);
      }
      var value := s[fieldStart..separatorPos];
      fieldStart := separatorPos + 1;

      if key !in keyValueMap {
        keyValueMap := keyValueMap[key := value];
      }
      ghost var t := Trial(key, value);
      assert ParseTrial(s, start) == Success((t, fieldStart));
      assert ParseFrom(s, start) == Cons(t, ParseFrom(s, fieldStart));
      ContinueStep(parsed, t, ParseFrom(s, fieldStart));
      FirstWinsAppend(parsed, t);
      parsed := parsed + [t];
    }
    assert ParseFrom(s, 0) == Success(parsed) by {
      assert parsed + [] == parsed;
    }
    if fieldStart != |s| {
      return Failure(InputNotConsumed);
    }
    return Success(keyValueMap);
  }

  method InsertIntoMap(s: string) returns (r: Result<map<string, string>>)
    ensures r.Success? <==> exists trials :: WellFormed(trials) && Print(trials) == s
    ensures r.Success? ==>
              forall trials :: WellFormed(trials) && Print(trials) == s ==> r.value == FirstWins(trials)
    ensures r.Failure? ==> Refused(s, r.error)
    ensures r != Failure(InputNotConsumed)
  {
    hide Refused, ParseFrom;
    ParseExactly(s);
    Refusal(s);
    r := ReadPairs(s);
    NeverUnconsumed(s);
  }

  /** The last check is redundant. */
  lemma NeverUnconsumed(s: string)
    ensures !Refused(s, InputNotConsumed)
  {
  }

  // ---------------------------------------------------------------------
  // Lookup
  // ---------------------------------------------------------------------

  ghost predicate FirstAt(trials: seq<Trial>, key: string, i: int) {
    && 0 <= i < |trials| && trials[i].key == key
    && forall j :: 0 <= j < i ==> trials[j].key != key
  }

  lemma {:induction false} KeysOfFirstWins(trials: seq<Trial>, key: string)
    ensures key in FirstWins(trials) <==> exists i :: 0 <= i < |trials| && trials[i].key == key
  {
    if trials != [] {
      var n := |trials| - 1;
      KeysOfFirstWins(trials[..n], key);
      assert forall i :: 0 <= i < n ==> trials[i] == trials[..n][i];
    }
  }

  lemma {:induction false} FirstWinsLooksUpFirst(trials: seq<Trial>, key: string, i: int)
    requires FirstAt(trials, key, i)
    ensures key in FirstWins(trials) && FirstWins(trials)[key] == trials[i].value
  {
    var n := |trials| - 1;
    KeysOfFirstWins(trials[..n], key);
    if i < n {
      FirstWinsLooksUpFirst(trials[..n], key, i);
    } else {
      assert forall j :: 0 <= j < n ==> trials[..n][j] == trials[j];
    }
  }

  /** A FieldTrials object: its own map, and for one created from the global string a
      fallback to the global lookup, which is an input here. */
  class FieldTrialsMap {
    const usesGlobal: bool
    const keyValueMap: map<string, string>

    constructor (usesGlobal: bool, keyValueMap: map<string, string>)
      ensures this.usesGlobal == usesGlobal && this.keyValueMap == keyValueMap
    {
      this.usesGlobal, this.keyValueMap := usesGlobal, keyValueMap;
    }

    /** On a map parsed from a printed list: the value of the first pair with the key,
        else the global value or the empty string. */
    method GetValue(key: string, globalValue: string, ghost trials: seq<Trial>) returns (value: string)
      requires keyValueMap == FirstWins(trials)
      ensures forall i :: FirstAt(trials, key, i) ==> value == trials[i].value
      ensures (forall i :: 0 <= i < |trials| ==> trials[i].key != key) ==>
                value == if usesGlobal then globalValue else ""
    {
      KeysOfFirstWins(trials, key);
      forall i | FirstAt(trials, key, i)
        ensures key in keyValueMap && keyValueMap[key] == trials[i].value
      {
        FirstWinsLooksUpFirst(trials, key, i);
      }
      if key in keyValueMap {
        return keyValueMap[key];
      }
      if usesGlobal {
        return globalValue;
      }
      return "";
    }
  }
}
