/** The command lines between the plugin and the step helper. */
module Argv {
  import opened Bytes

  const NUL := '\0'

  predicate IsAbs(path: string) {
    path != "" && path[0] == '/'
  }

  /** strings.Cut(s, "="): the text before and after the first `=`. */
  function Cut(s: string): (r: (string, string, bool)) {
    if s == "" then ("", "", false)
    else if s[0] == '=' then ("", s[1..], true)
    else var (k, v, ok) := Cut(s[1..]); ([s[0]] + k, v, ok)
  }

  predicate ValidName(k: string) {
    k != "" && '=' !in k && NUL !in k
  }

  lemma {:induction false} CutAssignment(k: string, v: string)
    requires '=' !in k
    ensures Cut(k + "=" + v) == (k, v, true)
    decreases |k|
  {
    if k == "" {
      assert (k + "=" + v)[1..] == v;
    } else {
      assert (k + "=" + v)[1..] == k[1..] + "=" + v;
      CutAssignment(k[1..], v);
      assert k == [k[0]] + k[1..];
    }
  }

  lemma {:induction false} CutNothing(s: string)
    requires '=' !in s
    ensures Cut(s) == (s, "", false)
    decreases |s|
  {
    if s != "" {
      CutNothing(s[1..]);
      assert s == [s[0]] + s[1..];
    }
  }

  // ----- Environment assignments, sorted by name -----

  predicate Less(a: string, b: string) {
    b != "" && (a == "" || a[0] < b[0] || (a[0] == b[0] && Less(a[1..], b[1..])))
  }

  /** The order is that of the first difference, a prefix coming first. */
  lemma LessExactly(a: string, b: string)
    ensures Less(a, b) <==> exists i: nat :: FirstDifference(a, b, i) && (i == |a| || a[i] < b[i])
  {
    if Less(a, b) {
      var i := DifferenceOf(a, b);
    }
    if i: nat :| FirstDifference(a, b, i) && (i == |a| || a[i] < b[i]) {
      LessAt(a, b, i);
    }
  }

  predicate FirstDifference(a: string, b: string, i: nat) {
    i <= |a| && i < |b| && a[..i] == b[..i] && (i < |a| ==> a[i] != b[i])
  }

  lemma {:induction false} DifferenceOf(a: string, b: string) returns (i: nat)
    requires Less(a, b)
    ensures FirstDifference(a, b, i) && (i == |a| || a[i] < b[i])
    decreases |a|
  {
    if a == "" || a[0] < b[0] {
      i := 0;
    } else {
      var j := DifferenceOf(a[1..], b[1..]);
      i := j + 1;
      assert a[..i] == [a[0]] + a[1..][..j] && b[..i] == [b[0]] + b[1..][..j];
    }
  }

  lemma {:induction false} LessAt(a: string, b: string, i: nat)
    requires FirstDifference(a, b, i) && (i == |a| || a[i] < b[i])
    ensures Less(a, b)
    decreases i
  {
    if i > 0 {
      assert a[0] == a[..i][0] == b[..i][0] == b[0];
      assert a[1..][..i - 1] == a[..i][1..] && b[1..][..i - 1] == b[..i][1..];
      LessAt(a[1..], b[1..], i - 1);
    }
  }

  lemma {:induction false} LessTotal(a: string, b: string)
    ensures Less(a, b) || a == b || Less(b, a)
    decreases |a|
  {
    if a != "" && b != "" && a[0] == b[0] {
      LessTotal(a[1..], b[1..]);
      assert a == [a[0]] + a[1..] && b == [b[0]] + b[1..];
    }
  }

  lemma {:induction false} LessTransitive(a: string, b: string, c: string)
    requires Less(a, b) && Less(b, c)
    ensures Less(a, c) && a != c
    decreases |a|
  {
    if a != "" && a[0] == b[0] == c[0] {
      LessTransitive(a[1..], b[1..], c[1..]);
    }
  }

  ghost predicate Ascending(ks: seq<string>) {
    forall i, j :: 0 <= i < j < |ks| ==> Less(ks[i], ks[j])
  }

  /** The valid names of an environment, in order: what EnvArgs must list. */
  ghost predicate IsNameList(env: map<string, string>, ks: seq<string>) {
    Ascending(ks) && forall k :: k in ks <==> k in env && ValidName(k)
  }

  /** There is only one such list, whatever order the map is walked in. */
  lemma {:induction false} NameListUnique(ks: seq<string>, ls: seq<string>)
    requires Ascending(ks) && Ascending(ls)
    requires forall k :: k in ks <==> k in ls
    ensures ks == ls
    decreases |ks|
  {
    assert ls == [] || ls[0] in ls;
    if ks != [] {
      assert ks[0] in ks && ks[0] in ls;
      assert ls[0] in ls && ls[0] in ks;
      if ks[0] != ls[0] {
        LessTransitive(ks[0], ls[0], ks[0]);
      }
      forall k ensures k in ks[1..] <==> k in ls[1..] {
        HeadIsNotInTail(ks, k);
        HeadIsNotInTail(ls, k);
      }
      NameListUnique(ks[1..], ls[1..]);
      assert ks == [ks[0]] + ks[1..] && ls == [ls[0]] + ls[1..];
    }
  }

  lemma HeadIsNotInTail(ks: seq<string>, k: string)
    requires ks != [] && Ascending(ks)
    ensures k in ks[1..] <==> k in ks && k != ks[0]
  {
    if k in ks[1..] {
      var i :| 0 <= i < |ks| - 1 && ks[1..][i] == k;
      assert Less(ks[0], ks[i + 1]);
      if k == ks[0] {
        LessTransitive(k, k, k);
      }
    }
  }

  function Assignments(env: map<string, string>, ks: seq<string>): (out: seq<string>)
    requires forall k :: k in ks ==> k in env
    ensures |out| == |ks|
  {
    seq(|ks|, i requires 0 <= i < |ks| => ks[i] + "=" + env[ks[i]])
  }

  /** Puts a name where it belongs in an ascending list. */
  method InsertName(ks: seq<string>, k: string) returns (out: seq<string>)
    requires Ascending(ks) && k !in ks
    ensures Ascending(out) && forall x :: x in out <==> x in ks || x == k
  {
    var i := |ks|;
    while i > 0 && Less(k, ks[i - 1])
      invariant 0 <= i <= |ks|
      invariant forall j :: i <= j < |ks| ==> Less(k, ks[j])
    {
      i := i - 1;
    }
    out := ks[..i] + [k] + ks[i..];
    if i > 0 {
      LessTotal(k, ks[i - 1]);
    }
    forall j | 0 <= j < i ensures Less(ks[j], k) {
      assert Less(ks[i - 1], k);
      if j < i - 1 {
        LessTransitive(ks[j], ks[i - 1], k);
      }
    }
    forall x ensures x in out <==> x in ks || x == k {
      assert ks == ks[..i] + ks[i..];
    }
  }

  /** The environment as sorted NAME=value arguments, invalid names dropped. */
  method EnvArgs(env: map<string, string>) returns (out: seq<string>)
    ensures exists ks :: IsNameList(env, ks) && out == Assignments(env, ks)
  {
    var todo := env.Keys;
    var keys: seq<string> := [];
    while todo != {}
      invariant todo <= env.Keys
      invariant Ascending(keys)
      invariant forall k :: k in keys <==> k in env.Keys - todo && ValidName(k)
      decreases |todo|
    {
      var k :| k in todo;
      if ValidName(k) {
        keys := InsertName(keys, k);
      }
      todo := todo - {k};
    }
    out := [];
    for i := 0 to |keys|
      invariant |out| == i
      invariant forall j :: 0 <= j < i ==> keys[j] in env && out[j] == keys[j] + "=" + env[keys[j]]
    {
      assert keys[i] in keys;
      out := out + [keys[i] + "=" + env[keys[i]]];
    }
    assert IsNameList(env, keys) && out == Assignments(env, keys);
  }

  // ----- run -----

  /** The argv of `run`, given its environment arguments. */
  function RunArgvOf(helper: string, dir: string, pidfile: string, workdir: string, envArgs: seq<string>,
                     cmd: seq<string>): seq<string>
  {
    [helper, "run", dir, pidfile, workdir] + envArgs + ["--"] + cmd
  }

  method RunArgv(helper: string, dir: string, pidfile: string, workdir: string, env: map<string, string>,
                 cmd: seq<string>)
    returns (argv: seq<string>)
    ensures exists ks :: IsNameList(env, ks)
                       && argv == RunArgvOf(helper, dir, pidfile, workdir, Assignments(env, ks), cmd)
  {
    argv := [helper, "run", dir, pidfile, workdir];
    var envArgs := EnvArgs(env);
    argv := argv + envArgs;
    argv := argv + ["--"];
    argv := argv + cmd;
  }

  datatype RunSpec = RunSpec(dir: string, pidfile: string, workdir: string, env: seq<string>, cmd: seq<string>)

  datatype UsageError =
    | TooFewArguments
    | RelativeDir
    | NoCommand
    | NotAnAssignment(arg: string)
    | NoSeparator
    | BadOffset

  datatype Result<T> = Ok(value: T) | Err(error: UsageError)

  predicate IsAssignment(a: string) {
    var (k, _, ok) := Cut(a);
    ok && ValidName(k)
  }

  function AfterAssignments(env: seq<string>, r: Result<(seq<string>, seq<string>)>)
    : Result<(seq<string>, seq<string>)>
  {
    match r
    case Ok((e, cmd)) => Ok((env + e, cmd))
    case Err(e) => Err(e)
  }

  /** The assignments before the first `--` and the command after it. */
  function SplitCommand(rest: seq<string>): Result<(seq<string>, seq<string>)> {
    if rest == [] then Err(NoSeparator)
    else if rest[0] == "--" then
      if |rest| == 1 then Err(NoCommand) else Ok(([], rest[1..]))
    else if !IsAssignment(rest[0]) then Err(NotAnAssignment(rest[0]))
    else AfterAssignments([rest[0]], SplitCommand(rest[1..]))
  }

  function ParseRunSpec(args: seq<string>): Result<RunSpec> {
    if |args| < 3 then Err(TooFewArguments)
    else if !IsAbs(args[0]) then Err(RelativeDir)
    else match SplitCommand(args[3..])
         case Ok((env, cmd)) => Ok(RunSpec(args[0], args[1], args[2], env, cmd))
         case Err(e) => Err(e)
  }

  /** Parses the arguments after `run`. */
  method ParseRun(args: seq<string>) returns (r: Result<RunSpec>)
    ensures r == ParseRunSpec(args)
  {
    if |args| < 3 {
      return Err(TooFewArguments);
    }
    if !IsAbs(args[0]) {
      return Err(RelativeDir);
    }
    var rest, env := args[3..], [];
    var i := 0;
    assert rest[0..] == rest;
    assert SplitCommand(rest).Ok? ==> [] + SplitCommand(rest).value.0 == SplitCommand(rest).value.0;
    while i < |rest|
      invariant 0 <= i <= |rest|
      invariant SplitCommand(rest) == AfterAssignments(env, SplitCommand(rest[i..]))
    {
      var a := rest[i];
      assert rest[i..][1..] == rest[i + 1..];
      if a == "--" {
        assert rest[i..][1..] == rest[i + 1..];
        if |rest| == i + 1 {
          return Err(NoCommand);
        }
        assert env + [] == env;
        return Ok(RunSpec(args[0], args[1], args[2], env, rest[i + 1..]));
      }
      if !IsAssignment(a) {
        return Err(NotAnAssignment(a));
      }
      ghost var next := SplitCommand(rest[i + 1..]);
      assert next.Ok? ==> env + ([a] + next.value.0) == (env + [a]) + next.value.0;
      env := env + [a];
      i := i + 1;
    }
    return Err(NoSeparator);
  }

  lemma {:induction false} SplitCommandRoundTrip(assigns: seq<string>, cmd: seq<string>)
    requires forall a :: a in assigns ==> IsAssignment(a)
    ensures SplitCommand(assigns + ["--"] + cmd) == if cmd == [] then Err(NoCommand) else Ok((assigns, cmd))
    decreases |assigns|
  {
    var rest := assigns + ["--"] + cmd;
    if assigns == [] {
      assert rest[1..] == cmd;
    } else {
      assert rest[1..] == assigns[1..] + ["--"] + cmd;
      SplitCommandRoundTrip(assigns[1..], cmd);
      assert assigns == [assigns[0]] + assigns[1..];
      assert assigns[0] in assigns;
      CutNothing("--");
    }
  }

  lemma AssignmentsAreAssignments(env: map<string, string>, ks: seq<string>)
    requires IsNameList(env, ks)
    ensures forall a :: a in Assignments(env, ks) ==> IsAssignment(a)
    ensures forall i :: 0 <= i < |ks| ==> Cut(Assignments(env, ks)[i]) == (ks[i], env[ks[i]], true)
  {
    var out := Assignments(env, ks);
    forall i | 0 <= i < |ks| ensures IsAssignment(out[i]) && Cut(out[i]) == (ks[i], env[ks[i]], true) {
      assert ks[i] in ks;
      CutAssignment(ks[i], env[ks[i]]);
    }
  }

  /** The command line of `run` parses back exactly when the directory is absolute and there is a command. */
  lemma RunRoundTrip(helper: string, dir: string, pidfile: string, workdir: string, env: map<string, string>,
                     ks: seq<string>, cmd: seq<string>)
    requires IsNameList(env, ks)
    ensures var args := RunArgvOf(helper, dir, pidfile, workdir, Assignments(env, ks), cmd)[2..];
            ParseRunSpec(args) == Ok(RunSpec(dir, pidfile, workdir, Assignments(env, ks), cmd))
            <==> IsAbs(dir) && cmd != []
  {
    var assigns := Assignments(env, ks);
    var args := RunArgvOf(helper, dir, pidfile, workdir, assigns, cmd)[2..];
    assert args == [dir, pidfile, workdir] + (assigns + ["--"] + cmd);
    assert args[3..] == assigns + ["--"] + cmd;
    AssignmentsAreAssignments(env, ks);
    SplitCommandRoundTrip(assigns, cmd);
  }

  // ----- The pipe to the supervisor -----

  function Join(args: seq<string>): string {
    if args == [] then "" else if |args| == 1 then args[0] else args[0] + [NUL] + Join(args[1..])
  }

  function Split(s: string): (parts: seq<string>)
    ensures parts != []
  {
    if s == "" then [""]
    else
      var rest := Split(s[1..]);
      if s[0] == NUL then [""] + rest else [[s[0]] + rest[0]] + rest[1..]
  }

  lemma {:induction false} SplitWord(w: string, s: string)
    requires NUL !in w
    ensures Split(w + [NUL] + s) == [w] + Split(s)
    ensures Split(w) == [w]
    decreases |w|
  {
    if w == "" {
      assert (w + [NUL] + s)[1..] == s;
    } else {
      assert (w + [NUL] + s)[1..] == w[1..] + [NUL] + s;
      SplitWord(w[1..], s);
      assert w == [w[0]] + w[1..];
    }
  }

  lemma {:induction false} SplitHasNoNul(s: string)
    ensures forall p :: p in Split(s) ==> NUL !in p
    decreases |s|
  {
    if s != "" {
      SplitHasNoNul(s[1..]);
      var rest := Split(s[1..]);
      assert rest[0] in rest;
      forall p | p in Split(s) ensures NUL !in p {
        if s[0] != NUL && p != [s[0]] + rest[0] {
          assert p in rest[1..];
        }
      }
    }
  }

  lemma {:induction false} SplitJoin(args: seq<string>)
    requires args != [] && forall a :: a in args ==> NUL !in a
    ensures Split(Join(args)) == args
    decreases |args|
  {
    assert args[0] in args;
    if |args| == 1 {
      SplitWord(args[0], "");
    } else {
      SplitJoin(args[1..]);
      SplitWord(args[0], Join(args[1..]));
    }
  }

  /**
   * The names that are dropped are exactly those that would not come through:
   * as an assignment they would be cut elsewhere, or split on the way.
   */
  lemma ValidNameExactly(k: string)
    ensures ValidName(k) <==> k != "" && Cut(k + "=") == (k, "", true) && Split(k + "=") == [k + "="]
  {
    if '=' !in k {
      CutAssignment(k, "");
      assert k + "=" + "" == k + "=";
    } else {
      CutStops(k + "=");
    }
    SplitHasNoNul(k + "=");
    if NUL !in k {
      SplitWord(k + "=", "");
    } else {
      assert forall i :: 0 <= i < |k| ==> k[i] == (k + "=")[i];
      assert NUL in k + "=";
    }
  }

  lemma {:induction false} CutStops(s: string)
    ensures '=' !in Cut(s).0
    decreases |s|
  {
    if s != "" {
      CutStops(s[1..]);
    }
  }

  /** The supervisor gets the arguments `run` was given exactly when there are some and none contains a NUL. */
  lemma SpecReachesSupervisor(args: seq<string>)
    ensures Split(Join(args)) == args <==> args != [] && forall a :: a in args ==> NUL !in a
  {
    SplitHasNoNul(Join(args));
    if args != [] && forall a :: a in args ==> NUL !in a {
      SplitJoin(args);
    }
  }

  /** What SplitCommand accepts determines what it was given. */
  lemma {:induction false} SplitCommandDetermines(rest: seq<string>, assigns: seq<string>, cmd: seq<string>)
    requires SplitCommand(rest) == Ok((assigns, cmd))
    ensures rest == assigns + ["--"] + cmd && cmd != [] && forall a :: a in assigns ==> IsAssignment(a)
    decreases |rest|
  {
    if rest[0] == "--" {
      assert rest == [] + ["--"] + rest[1..];
    } else {
      var tail := SplitCommand(rest[1..]).value;
      SplitCommandDetermines(rest[1..], tail.0, tail.1);
      assert rest == [rest[0]] + rest[1..];
    }
  }

  /**
   * What `run` accepts: an absolute directory, assignments, a command. A spec
   * parses from one argument list only.
   */
  lemma ParseExactly(args: seq<string>, spec: RunSpec, helper: string)
    ensures ParseRunSpec(args) == Ok(spec) <==>
              && args == RunArgvOf(helper, spec.dir, spec.pidfile, spec.workdir, spec.env, spec.cmd)[2..]
              && IsAbs(spec.dir) && spec.cmd != [] && forall a :: a in spec.env ==> IsAssignment(a)
  {
    if ParseRunSpec(args) == Ok(spec) {
      var rest := args[3..];
      SplitCommandDetermines(rest, spec.env, spec.cmd);
      assert args == [spec.dir, spec.pidfile, spec.workdir] + rest;
    }
    if forall a :: a in spec.env ==> IsAssignment(a) {
      var built := RunArgvOf(helper, spec.dir, spec.pidfile, spec.workdir, spec.env, spec.cmd)[2..];
      assert built[3..] == spec.env + ["--"] + spec.cmd;
      SplitCommandRoundTrip(spec.env, spec.cmd);
    }
  }

  /** From the plugin's call to the supervisor: the step's spec arrives whole exactly when no NUL is in it. */
  lemma SupervisorGetsSpec(helper: string, dir: string, pidfile: string, workdir: string, env: map<string, string>,
                           ks: seq<string>, cmd: seq<string>)
    requires IsNameList(env, ks) && IsAbs(dir) && cmd != []
    ensures var args := RunArgvOf(helper, dir, pidfile, workdir, Assignments(env, ks), cmd)[2..];
            (forall a :: a in args ==> NUL !in a) <==>
              ParseRunSpec(Split(Join(args))) == Ok(RunSpec(dir, pidfile, workdir, Assignments(env, ks), cmd))
  {
    var spec := RunSpec(dir, pidfile, workdir, Assignments(env, ks), cmd);
    var args := RunArgvOf(helper, dir, pidfile, workdir, spec.env, cmd)[2..];
    RunRoundTrip(helper, dir, pidfile, workdir, env, ks, cmd);
    SpecReachesSupervisor(args);
    assert args != [];
    if ParseRunSpec(Split(Join(args))) == Ok(spec) {
      ParseExactly(Split(Join(args)), spec, helper);
    }
  }

  // ----- follow -----

  function Digit(d: nat): char
    requires d < 10
  {
    '0' + d as char
  }

  function FormatInt(n: nat): string {
    if n < 10 then [Digit(n)] else FormatInt(n / 10) + [Digit(n % 10)]
  }

  predicate IsDigit(c: char) {
    '0' <= c <= '9'
  }

  function ParseDigits(s: string): Option<nat> {
    if s == "" || !IsDigit(s[|s| - 1]) then None
    else
      var d := (s[|s| - 1] - '0') as nat;
      if |s| == 1 then Some(d)
      else match ParseDigits(s[..|s| - 1])
           case None => None
           case Some(n) => Some(10 * n + d)
  }

  /** strconv.ParseInt(s, 10, 64) */
  function ParseInt(s: string): Option<int> {
    var signed := s != "" && (s[0] == '-' || s[0] == '+');
    match ParseDigits(if signed then s[1..] else s)
    case None => None
    case Some(n) =>
      var v: int := if signed && s[0] == '-' then -(n as int) else n;
      if -MAX_INT64 - 1 <= v <= MAX_INT64 then Some(v) else None
  }

  function FollowArgv(helper: string, dir: string, offset: nat): seq<string> {
    [helper, "follow", dir, FormatInt(offset)]
  }

  function ParseFollow(args: seq<string>): Result<(string, nat)> {
    if |args| != 2 || !IsAbs(args[0]) then Err(TooFewArguments)
    else
      match ParseInt(args[1])
      case None => Err(BadOffset)
      case Some(off) => if off < 0 then Err(BadOffset) else Ok((args[0], off))
  }

  lemma {:induction false} DigitsRoundTrip(n: nat)
    ensures FormatInt(n) != "" && IsDigit(FormatInt(n)[0])
    ensures ParseDigits(FormatInt(n)) == Some(n)
  {
    if n >= 10 {
      DigitsRoundTrip(n / 10);
      var s := FormatInt(n);
      assert s[..|s| - 1] == FormatInt(n / 10);
      assert s[|s| - 1] == Digit(n % 10);
    }
  }

  /** A resume offset reaches the helper exactly when it fits an int64 and the directory is absolute. */
  lemma FollowRoundTrip(helper: string, dir: string, offset: nat)
    ensures ParseFollow(FollowArgv(helper, dir, offset)[2..]) == Ok((dir, offset))
       <==> IsAbs(dir) && offset <= MAX_INT64
  {
    DigitsRoundTrip(offset);
    assert FollowArgv(helper, dir, offset)[2..] == [dir, FormatInt(offset)];
  }
}
