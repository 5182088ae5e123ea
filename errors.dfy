/** Error values of the `pipeline` package and their aggregation into one
    combined error (`combineErrors`, the kill message `errTextKilling`). */
module Errors {

  /** `nil` versus a non-nil value of an interface type such as `error`. */
  datatype Option<+T> = None | Some(value: T)

  /** The trailing `%s` of the kill message: why the worker left its loop. */
  datatype Reason =
    | LeftToCollector   // kill won the race against an in-flight ProcessFunc
    | LoopFinished      // kill arrived while the worker was waiting in its select

  /** A Go `error` as the package produces one. */
  datatype Error =
    | Killed(node: string, gopher: int, queued: nat, reason: Reason)  // fmt.Errorf(errTextKilling, ...)
    | Message(text: string)                                          // errors.New(text)

  predicate IsDigits(s: string) {
    forall i :: 0 <= i < |s| ==> '0' <= s[i] <= '9'
  }

  function DigitChar(d: nat): (c: char)
    requires d < 10
    ensures '0' <= c <= '9' && c as int - '0' as int == d
  {
    ('0' as int + d) as char
  }

  /** `%d` of a non-negative integer. */
  function NatText(n: nat): (s: string)
    ensures |s| > 0 && IsDigits(s)
  {
    if n < 10 then [DigitChar(n)] else NatText(n / 10) + [DigitChar(n % 10)]
  }

  /** `%d` of any integer. */
  function IntText(i: int): string {
    if i < 0 then "-" + NatText(-i) else NatText(i)
  }

  /** Reads a decimal rendering back; the partner of NatText. */
  function ParseNat(s: string): nat
    requires IsDigits(s)
  {
    if s == [] then 0 else 10 * ParseNat(s[..|s| - 1]) + (s[|s| - 1] as int - '0' as int)
  }

  /** The worker id and the queue depth printed into a kill message can be read back. */
  lemma {:induction false} ParseNatText(n: nat)
    ensures ParseNat(NatText(n)) == n
  {
    if n >= 10 {
      var s := NatText(n);
      assert s[..|s| - 1] == NatText(n / 10);
      ParseNatText(n / 10);
    }
  }

  function ReasonText(r: Reason): string {
    match r
    case LeftToCollector => "горутина оставлена сборщику"
    case LoopFinished => "исполнение завершено"
  }

  /** `e.Error()`: a plain error's own text, or `errTextKilling` filled in,
      which ends in a line break. */
  function ErrorText(e: Error): (r: string)
    ensures e.Message? ==> r == e.text
    ensures e.Killed? ==> "Прервано - узел:" <= r && |r| > 0 && r[|r| - 1] == '\n'
  {
    match e
    case Message(t) => t
    case Killed(node, gopher, queued, reason) =>
      "Прервано - узел:" + node + ", рутина:" + IntText(gopher) + ", очередь:" + NatText(queued)
      + ", " + ReasonText(reason) + "\n"
  }

  function Texts(errs: seq<Error>): (r: seq<string>)
    ensures |r| == |errs|
    ensures forall i :: 0 <= i < |errs| ==> r[i] == ErrorText(errs[i])
  {
    seq(|errs|, i requires 0 <= i < |errs| => ErrorText(errs[i]))
  }

  /** `strings.Join(parts, sep)`. */
  function Join(parts: seq<string>, sep: string): string {
    if |parts| == 0 then ""
    else if |parts| == 1 then parts[0]
    else parts[0] + sep + Join(parts[1..], sep)
  }

  /** `strings.Split(s, "\n")`: how a reader takes a combined error apart again. */
  function SplitLines(s: string): (r: seq<string>)
    ensures |r| >= 1
  {
    if s == [] then [""]
    else
      var rest := SplitLines(s[1..]);
      if s[0] == '\n' then [""] + rest else [[s[0]] + rest[0]] + rest[1..]
  }

  /** The value `combineErrors` returns: nil for no errors, otherwise one error
      whose text is the texts of all of them, in order, joined with line
      breaks. */
  function Combined(errs: seq<Error>): (r: Option<Error>)
    ensures r.None? <==> errs == []
    ensures |errs| == 1 ==> r == Some(Message(ErrorText(errs[0])))
  {
    if |errs| == 0 then None else Some(Message(Join(Texts(errs), "\n")))
  }

  /** `combineErrors` itself: fills `errorStrings` in a loop and joins it. */
  method CombineErrors(errorsSlice: seq<Error>) returns (err: Option<Error>)
    ensures err == Combined(errorsSlice)
  {
    if |errorsSlice| == 0 {
      return None;
    }
    var errorStrings := new string[|errorsSlice|];
    for i := 0 to |errorsSlice|
      invariant forall j :: 0 <= j < i ==> errorStrings[j] == ErrorText(errorsSlice[j])
    {
      errorStrings[i] := ErrorText(errorsSlice[i]);
    }
    assert errorStrings[..] == Texts(errorsSlice);
    err := Some(Message(Join(errorStrings[..], "\n")));
  }

  /** The non-nil values of a sequence of `error`s, in order (what the
      `if errRoutine != nil { append }` loops collect). */
  function NonNil(xs: seq<Option<Error>>): (r: seq<Error>)
    ensures |r| <= |xs|
  {
    if xs == [] then []
    else (if xs[0].Some? then [xs[0].value] else []) + NonNil(xs[1..])
  }

  lemma {:induction false} NonNilEmpty(xs: seq<Option<Error>>)
    ensures NonNil(xs) == [] <==> forall i :: 0 <= i < |xs| ==> xs[i].None?
  {
    if xs != [] {
      NonNilEmpty(xs[1..]);
      assert forall i :: 1 <= i < |xs| ==> xs[i] == xs[1..][i - 1];
    }
  }

  lemma {:induction false} NonNilAppend(a: seq<Option<Error>>, b: seq<Option<Error>>)
    ensures NonNil(a + b) == NonNil(a) + NonNil(b)
  {
    if a != [] {
      assert (a + b)[1..] == a[1..] + b;
      NonNilAppend(a[1..], b);
    } else {
      assert a + b == b;
    }
  }

  /** combineErrors yields nil exactly when every collected value was nil. */
  lemma CombinedNonNilIsNone(xs: seq<Option<Error>>)
    ensures Combined(NonNil(xs)).None? <==> forall i :: 0 <= i < |xs| ==> xs[i].None?
  {
    NonNilEmpty(xs);
  }

  lemma {:induction false} SplitLinesPlain(a: string)
    requires '\n' !in a
    ensures SplitLines(a) == [a]
  {
    if a != [] {
      SplitLinesPlain(a[1..]);
      assert [a[0]] + a[1..] == a;
    }
  }

  lemma {:induction false} SplitLinesAt(a: string, b: string)
    requires '\n' !in a
    ensures SplitLines(a + "\n" + b) == [a] + SplitLines(b)
  {
    var s := a + "\n" + b;
    if a == [] {
      assert s[0] == '\n' && s[1..] == b;
    } else {
      assert s[0] == a[0] && s[1..] == a[1..] + "\n" + b;
      SplitLinesAt(a[1..], b);
      assert [a[0]] + a[1..] == a;
    }
  }

  /** Splitting a joined text at its line breaks gives back the parts, when no
      part holds a line break itself. */
  lemma {:induction false} SplitJoin(parts: seq<string>)
    requires |parts| > 0
    requires forall i :: 0 <= i < |parts| ==> '\n' !in parts[i]
    ensures SplitLines(Join(parts, "\n")) == parts
  {
    if |parts| == 1 {
      SplitLinesPlain(parts[0]);
    } else {
      SplitLinesAt(parts[0], Join(parts[1..], "\n"));
      SplitJoin(parts[1..]);
    }
  }

  /** The lines of several texts, each split on its own, one after another. */
  function LinesOf(parts: seq<string>): (r: seq<string>)
    ensures |r| >= |parts|
  {
    if parts == [] then [] else SplitLines(parts[0]) + LinesOf(parts[1..])
  }

  /** `SplitLines` of a text that starts with `c`, one character unfolded. */
  lemma SplitLinesCons(c: char, t: string)
    ensures var rest := SplitLines(t);
            SplitLines([c] + t) == if c == '\n' then [""] + rest else [[c] + rest[0]] + rest[1..]
  {
    assert ([c] + t)[0] == c && ([c] + t)[1..] == t;
  }

  /** A line break between two texts ends the last line of the first: the
      lines of the whole are the lines of each, whatever the texts hold. */
  lemma {:induction false} SplitLinesCat(a: string, b: string)
    ensures SplitLines(a + "\n" + b) == SplitLines(a) + SplitLines(b)
  {
    if a == [] {
      assert a + "\n" + b == ['\n'] + b;
      SplitLinesCons('\n', b);
    } else {
      var t := a[1..];
      assert a == [a[0]] + t && a + "\n" + b == [a[0]] + (t + "\n" + b);
      SplitLinesCat(t, b);
      SplitLinesConsCat(a[0], SplitLines(t), SplitLines(b));
      SplitLinesCons(a[0], t);
      SplitLinesCons(a[0], t + "\n" + b);
    }
  }

  /** The step of `SplitLinesCat`: putting `c` in front of the first text
      changes the first line the same way in the whole. */
  lemma SplitLinesConsCat(c: char, x: seq<string>, y: seq<string>)
    requires |x| >= 1
    ensures var xy := x + y;
            (if c == '\n' then [""] + xy else [[c] + xy[0]] + xy[1..])
            == (if c == '\n' then [""] + x else [[c] + x[0]] + x[1..]) + y
  {
    assert (x + y)[0] == x[0] && (x + y)[1..] == x[1..] + y;
  }

  /** Splitting a joined text at its line breaks gives the lines of every
      part, in order. */
  lemma {:induction false} SplitJoinLines(parts: seq<string>)
    requires parts != []
    ensures SplitLines(Join(parts, "\n")) == LinesOf(parts)
  {
    if |parts| == 1 {
      assert LinesOf(parts) == SplitLines(parts[0]) + LinesOf([]);
    } else {
      SplitLinesCat(parts[0], Join(parts[1..], "\n"));
      SplitJoinLines(parts[1..]);
    }
  }

  /** The text `combineErrors` builds splits at its line breaks into the
      lines of each error's own text, in order. */
  lemma CombinedLines(errs: seq<Error>)
    ensures Combined(errs).Some? ==> SplitLines(ErrorText(Combined(errs).value)) == LinesOf(Texts(errs))
  {
    if errs != [] {
      SplitJoinLines(Texts(errs));
    }
  }

  /** A kill message without its trailing line break. */
  function KillLine(e: Error): (s: string)
    requires e.Killed?
    ensures ErrorText(e) == s + "\n"
  {
    "Прервано - узел:" + e.node + ", рутина:" + IntText(e.gopher) + ", очередь:" + NatText(e.queued)
    + ", " + ReasonText(e.reason)
  }

  /** A kill message is one line and then an empty one; the line holds no
      break when the node's name holds none. */
  lemma KilledTextLines(e: Error)
    requires e.Killed?
    ensures SplitLines(ErrorText(e)) == SplitLines(KillLine(e)) + [""]
    ensures '\n' !in e.node ==> SplitLines(ErrorText(e)) == [KillLine(e), ""]
  {
    assert KillLine(e) + "\n" + "" == ErrorText(e);
    SplitLinesCat(KillLine(e), "");
    if '\n' !in e.node {
      assert '\n' !in IntText(e.gopher);
      assert '\n' !in ReasonText(e.reason);
      assert '\n' !in KillLine(e);
      SplitLinesPlain(KillLine(e));
    }
  }

  /** Kill messages whose node names hold no line break. */
  ghost predicate PlainKills(errs: seq<Error>) {
    forall i :: 0 <= i < |errs| ==> errs[i].Killed? && '\n' !in errs[i].node
  }

  /** Each kill message's line followed by an empty line, in order. */
  function KillLines(errs: seq<Error>): (r: seq<string>)
    requires forall i :: 0 <= i < |errs| ==> errs[i].Killed?
    ensures |r| == 2 * |errs|
  {
    if errs == [] then [] else [KillLine(errs[0]), ""] + KillLines(errs[1..])
  }

  lemma {:induction false} LinesOfKills(errs: seq<Error>)
    requires PlainKills(errs)
    ensures LinesOf(Texts(errs)) == KillLines(errs)
  {
    if errs != [] {
      KilledTextLines(errs[0]);
      assert Texts(errs)[1..] == Texts(errs[1..]);
      LinesOfKills(errs[1..]);
    }
  }

  /** Combined kill messages read back as two lines per error, the message
      and an empty line, in order: `A\n\nB\n` for two. */
  lemma CombinedKillLines(errs: seq<Error>)
    requires PlainKills(errs)
    ensures Combined(errs).Some? ==> SplitLines(ErrorText(Combined(errs).value)) == KillLines(errs)
  {
    CombinedLines(errs);
    LinesOfKills(errs);
  }

  lemma {:induction false} JoinAppend(a: seq<string>, b: seq<string>, sep: string)
    requires |a| > 0 && |b| > 0
    ensures Join(a + b, sep) == Join(a, sep) + sep + Join(b, sep)
  {
    if |a| == 1 {
      assert (a + b)[1..] == b;
    } else {
      assert (a + b)[1..] == a[1..] + b;
      JoinAppend(a[1..], b, sep);
    }
  }

  lemma TextsAppend(a: seq<Error>, b: seq<Error>)
    ensures Texts(a + b) == Texts(a) + Texts(b)
  {
  }

  function Flatten(groups: seq<seq<Error>>): (r: seq<Error>) {
    if groups == [] then [] else groups[0] + Flatten(groups[1..])
  }

  /** The per-group combined errors, as `Kill` returns them node by node. */
  function CombinedEach(groups: seq<seq<Error>>): (r: seq<Option<Error>>)
    ensures |r| == |groups|
    ensures forall k :: 0 <= k < |groups| ==> r[k] == Combined(groups[k])
  {
    seq(|groups|, k requires 0 <= k < |groups| => Combined(groups[k]))
  }

  /** Combining the non-nil combined errors of several groups is the same as
      combining every error of every group directly, in order: a
      pipeline-wide kill reports the combination of every worker error,
      group by group. */
  lemma {:induction false} CombinedFlatten(groups: seq<seq<Error>>)
    ensures Combined(NonNil(CombinedEach(groups))) == Combined(Flatten(groups))
  {
    if groups != [] {
      var g, rest := groups[0], groups[1..];
      assert CombinedEach(groups) == [Combined(g)] + CombinedEach(rest);
      NonNilAppend([Combined(g)], CombinedEach(rest));
      assert NonNil([Combined(g)]) == if g == [] then [] else [Message(Join(Texts(g), "\n"))];
      CombinedFlatten(rest);
      var r := NonNil(CombinedEach(rest));
      if g == [] {
        assert Flatten(groups) == Flatten(rest);
        assert NonNil(CombinedEach(groups)) == r;
      } else if r == [] {
        assert Flatten(rest) == [];
        assert Flatten(groups) == g;
      } else {
        assert NonNil(CombinedEach(groups)) == [Message(Join(Texts(g), "\n"))] + r;
        CombinedCons(g, r, Flatten(rest));
        assert Flatten(groups) == g + Flatten(rest);
      }
    }
  }

  /** The step of `CombinedFlatten`: a group's combined error put in front of
      errors that combine like `rest` combines like the group put in front of
      `rest`. */
  lemma CombinedCons(g: seq<Error>, r: seq<Error>, rest: seq<Error>)
    requires g != [] && r != [] && Combined(r) == Combined(rest)
    ensures Combined([Message(Join(Texts(g), "\n"))] + r) == Combined(g + rest)
  {
    var a := Message(Join(Texts(g), "\n"));
    assert Texts([a] + r) == [ErrorText(a)] + Texts(r);
    JoinAppend([ErrorText(a)], Texts(r), "\n");
    TextsAppend(g, rest);
    JoinAppend(Texts(g), Texts(rest), "\n");
  }
}
