/** Windows argument quoting, and the documented rules by which a program splits its command line again. */
module CommandLine {
  import opened Common

  datatype Refusal = InvalidArgument | CommandTooLong

  function Backslashes(n: nat): string { seq(n, _ => '\\') }

  // ---- quoting ----

  /** The rest of an argument, after `slashes` backslashes not yet written. */
  function Escaped(rest: string, slashes: nat): string {
    if rest == "" then Backslashes(2 * slashes)
    else if rest[0] == '\\' then Escaped(rest[1..], slashes + 1)
    else if rest[0] == '"' then Backslashes(2 * slashes + 1) + "\"" + Escaped(rest[1..], 0)
    else Backslashes(slashes) + [rest[0]] + Escaped(rest[1..], 0)
  }

  function Quoted(value: string): string { "\"" + Escaped(value, 0) + "\"" }

  method Quote(value: string) returns (result: string)
    ensures result == Quoted(value)
  {
    result := "\"";
    var slashes := 0;
    for i := 0 to |value|
      invariant result + Escaped(value[i..], slashes) == "\"" + Escaped(value, 0)
    {
      var c := value[i];
      assert value[i..] == [c] + value[i + 1..];
      if c == '\\' {
        slashes := slashes + 1;
      } else if c == '"' {
        result := result + Backslashes(2 * slashes + 1) + "\"";
        slashes := 0;
      } else {
        result := result + Backslashes(slashes) + [c];
        slashes := 0;
      }
    }
    result := result + Backslashes(2 * slashes) + "\"";
  }

  /** Every argument after the program, each behind a space. */
  function Joined(arguments: seq<string>): string {
    if arguments == [] then "" else " " + Quoted(arguments[0]) + Joined(arguments[1..])
  }

  function JoinedVerbatim(arguments: seq<string>): string {
    if arguments == [] then "" else " " + arguments[0] + JoinedVerbatim(arguments[1..])
  }

  predicate NoNuls(arguments: seq<string>) { forall i :: 0 <= i < |arguments| ==> '\0' !in arguments[i] }

  lemma {:induction false} JoinedAppend(front: seq<string>, last: string)
    ensures Joined(front + [last]) == Joined(front) + " " + Quoted(last)
    ensures JoinedVerbatim(front + [last]) == JoinedVerbatim(front) + " " + last
  {
    hide Quoted;
    if front == [] {
      assert front + [last] == [last];
      assert [last][1..] == [];
    } else {
      var all := front + [last];
      assert all[1..] == front[1..] + [last] && all[0] == front[0];
      JoinedAppend(front[1..], last);
      var more := " " + Quoted(last);
      Associate(Joined(front[1..]), " ", Quoted(last));
      Associate(" " + Quoted(front[0]), Joined(front[1..]), more);
      Associate(Joined(front), " ", Quoted(last));
      Associate(JoinedVerbatim(front[1..]), " ", last);
      Associate(" " + front[0], JoinedVerbatim(front[1..]), " " + last);
      Associate(JoinedVerbatim(front), " ", last);
    }
  }

  lemma JoinedEmpty()
    ensures Joined([]) == "" && JoinedVerbatim([]) == ""
  {
  }

  lemma Appended(a: string, b: string, c: string, d: string)
    ensures a + b + c + d == a + (b + c + d)
  {
    Associate(a, b, c);
    Associate(a, b + c, d);
  }

  /** The command line handed to the operating system. */
  method Command(executable: string, arguments: seq<string>, verbatim: bool) returns (r: Result<string, Refusal>)
    ensures r.Ok? ==> r.value == Quoted(executable) + (if verbatim then JoinedVerbatim(arguments) else Joined(arguments))
    ensures r.Ok? <==> NoNuls(arguments)
                       && |Quoted(executable) + (if verbatim then JoinedVerbatim(arguments) else Joined(arguments))| < 32767
    ensures r == Refused(InvalidArgument) <==> !NoNuls(arguments)
  {
    hide Quoted, Joined, JoinedVerbatim;
    JoinedEmpty();
    assert arguments[..0] == [];
    var command := Quote(executable);
    assert command == command + "";
    for i := 0 to |arguments|
      invariant NoNuls(arguments[..i])
      invariant command == Quoted(executable) + (if verbatim then JoinedVerbatim(arguments[..i]) else Joined(arguments[..i]))
    {
      if '\0' in arguments[i] { return Refused(InvalidArgument); }
      assert arguments[..i + 1] == arguments[..i] + [arguments[i]];
      JoinedAppend(arguments[..i], arguments[i]);
      var before := if verbatim then JoinedVerbatim(arguments[..i]) else Joined(arguments[..i]);
      var next := arguments[i];
      if !verbatim { next := Quote(next); }
      Appended(Quoted(executable), before, " ", next);
      command := command + " " + next;
    }
    assert arguments[..|arguments|] == arguments;
    if |command| >= 32767 { return Refused(CommandTooLong); }
    return Ok(command);
  }

  // ---- splitting, by Microsoft's "Parsing C command-line arguments" ----

  predicate Blank(c: char) { c == ' ' || c == '\t' }

  function CountBackslashes(s: string): (n: nat)
    ensures n <= |s| && (n < |s| ==> s[n] != '\\')
    ensures forall i :: 0 <= i < n ==> s[i] == '\\'
  {
    if s == "" || s[0] != '\\' then 0 else 1 + CountBackslashes(s[1..])
  }

  /**
   * One argument and what follows it. Backslashes count only before a quotation mark, where each pair is
   * one backslash and an odd one makes the mark literal; a bare mark opens or closes quotation; two marks
   * inside quotation are one literal mark; a blank outside quotation ends the argument.
   */
  function Argument(s: string, quoting: bool): (r: (string, string))
    ensures |r.1| <= |s|
    ensures s != "" && (quoting || !Blank(s[0])) ==> |r.1| < |s|
    decreases |s|
  {
    if s == "" || (!quoting && Blank(s[0])) then ("", s)
    else
      var n := CountBackslashes(s);
      if n > 0 && n < |s| && s[n] == '"' then
        if n % 2 == 1 then
          var (tail, rest) := Argument(s[n + 1..], quoting);
          (Backslashes(n / 2) + "\"" + tail, rest)
        else
          var (tail, rest) := Argument(s[n..], quoting);
          (Backslashes(n / 2) + tail, rest)
      else if n > 0 then
        var (tail, rest) := Argument(s[n..], quoting);
        (Backslashes(n) + tail, rest)
      else if s[0] == '"' then
        if quoting && |s| > 1 && s[1] == '"' then
          var (tail, rest) := Argument(s[2..], quoting);
          ("\"" + tail, rest)
        else Argument(s[1..], !quoting)
      else
        var (tail, rest) := Argument(s[1..], quoting);
        ([s[0]] + tail, rest)
  }

  function Split(s: string): seq<string>
    decreases |s|
  {
    if s == "" then []
    else if Blank(s[0]) then Split(s[1..])
    else
      var (argument, rest) := Argument(s, false);
      [argument] + Split(rest)
  }

  /** The program name: quotation marks only toggle quotation, and no escapes apply. */
  function Program(s: string, quoting: bool): (string, string)
    decreases |s|
  {
    if s == "" || (!quoting && Blank(s[0])) then ("", s)
    else if s[0] == '"' then Program(s[1..], !quoting)
    else var (tail, rest) := Program(s[1..], quoting); ([s[0]] + tail, rest)
  }

  function Arguments(command: string): seq<string> {
    var (program, rest) := Program(command, false);
    [program] + Split(rest)
  }

  // ---- the round trip ----

  predicate Boundary(rest: string) { rest == "" || Blank(rest[0]) }

  lemma {:induction false} CountThem(n: nat, tail: string)
    requires tail == "" || tail[0] != '\\'
    ensures CountBackslashes(Backslashes(n) + tail) == n
  {
    if n > 0 {
      assert (Backslashes(n) + tail)[1..] == Backslashes(n - 1) + tail;
      CountThem(n - 1, tail);
    } else {
      assert Backslashes(0) + tail == tail;
    }
  }

  /** Backslashes not before a mark stand for themselves. */
  lemma ReadPlain(n: nat, tail: string)
    requires tail != "" && tail[0] != '\\' && tail[0] != '"'
    ensures Argument(Backslashes(n) + tail, true) == (Backslashes(n) + Argument(tail, true).0, Argument(tail, true).1)
  {
    CountThem(n, tail);
    var s := Backslashes(n) + tail;
    if n == 0 {
      assert s == tail;
      assert Backslashes(0) + Argument(tail, true).0 == Argument(tail, true).0;
    } else {
      assert s[n..] == tail && s[n] == tail[0];
    }
  }

  /** Twice the backslashes and one more before a mark stand for the backslashes and the mark. */
  lemma ReadEscapedMark(n: nat, tail: string)
    ensures Argument(Backslashes(2 * n + 1) + "\"" + tail, true)
            == (Backslashes(n) + "\"" + Argument(tail, true).0, Argument(tail, true).1)
  {
    var m := 2 * n + 1;
    CountThem(m, "\"" + tail);
    var s := Backslashes(m) + "\"" + tail;
    assert s == Backslashes(m) + ("\"" + tail);
    assert s[m + 1..] == tail && s[m] == '"' && m / 2 == n && m % 2 == 1;
  }

  lemma CloseMark(rest: string)
    requires Boundary(rest)
    ensures Argument("\"" + rest, true) == ("", rest)
  {
    var mark := "\"" + rest;
    assert CountBackslashes(mark) == 0;
    assert mark[1..] == rest;
  }

  lemma ReadEvenBackslashes(n: nat, tail: string)
    requires n > 0 && tail != "" && tail[0] == '"'
    ensures Argument(Backslashes(2 * n) + tail, true) == (Backslashes(n) + Argument(tail, true).0, Argument(tail, true).1)
  {
    var m := 2 * n;
    CountThem(m, tail);
    var s := Backslashes(m) + tail;
    assert s[m..] == tail && s[m] == '"' && m / 2 == n && m % 2 == 0;
  }

  /** Twice the backslashes before the closing mark stand for the backslashes, and the argument ends. */
  lemma ReadClosingMark(n: nat, rest: string)
    requires Boundary(rest)
    ensures Argument(Backslashes(2 * n) + "\"" + rest, true) == (Backslashes(n), rest)
  {
    hide Argument;
    var mark := "\"" + rest;
    CloseMark(rest);
    Associate(Backslashes(2 * n), "\"", rest);
    if n == 0 {
      assert Backslashes(0) + mark == mark;
    } else {
      ReadEvenBackslashes(n, mark);
      assert Backslashes(n) + "" == Backslashes(n);
    }
  }

  lemma EscapedMark(value: string, n: nat, rest: string)
    requires value != "" && value[0] == '"'
    ensures Escaped(value, n) + "\"" + rest == Backslashes(2 * n + 1) + "\"" + (Escaped(value[1..], 0) + "\"" + rest)
    ensures Backslashes(n) + "\"" + value[1..] == Backslashes(n) + value
  {
    hide Backslashes;
    var tail := Escaped(value[1..], 0);
    Associate(Escaped(value, n), "\"", rest);
    Associate(tail, "\"", rest);
    Associate(Backslashes(2 * n + 1) + "\"", tail, "\"" + rest);
    assert "\"" + value[1..] == value;
    Associate(Backslashes(n), "\"", value[1..]);
  }

  lemma EscapedCharacter(value: string, n: nat, rest: string)
    requires value != "" && value[0] != '"' && value[0] != '\\'
    ensures Escaped(value, n) + "\"" + rest == Backslashes(n) + ([value[0]] + (Escaped(value[1..], 0) + "\"" + rest))
    ensures [value[0]] + value[1..] == value
  {
    hide Backslashes;
    var tail := Escaped(value[1..], 0);
    Associate(Escaped(value, n), "\"", rest);
    Associate(tail, "\"", rest);
    Associate(Backslashes(n) + [value[0]], tail, "\"" + rest);
    Associate(Backslashes(n), [value[0]], tail + ("\"" + rest));
  }

  /** Reading back an escaped argument gives the pending backslashes and the argument. */
  lemma {:induction false} EscapedReadsBack(value: string, n: nat, rest: string)
    requires Boundary(rest)
    ensures Argument(Escaped(value, n) + "\"" + rest, true) == (Backslashes(n) + value, rest)
    decreases |value|
  {
    hide Argument, Boundary;
    if value == "" {
      ReadClosingMark(n, rest);
      assert Backslashes(n) + value == Backslashes(n);
    } else if value[0] == '\\' {
      EscapedReadsBack(value[1..], n + 1, rest);
      assert Backslashes(n + 1) + value[1..] == Backslashes(n) + value;
    } else {
      EscapedReadsBack(value[1..], 0, rest);
      var tail := Escaped(value[1..], 0) + "\"" + rest;
      assert Backslashes(0) + value[1..] == value[1..];
      if value[0] == '"' {
        EscapedMark(value, n, rest);
        ReadEscapedMark(n, tail);
      } else {
        EscapedCharacter(value, n, rest);
        ReadCharacter(value[0], tail);
        ReadPlain(n, [value[0]] + tail);
      }
    }
  }

  lemma ReadCharacter(c: char, tail: string)
    requires c != '\\' && c != '"'
    ensures Argument([c] + tail, true) == ([c] + Argument(tail, true).0, Argument(tail, true).1)
  {
    CountThem(0, [c] + tail);
    assert Backslashes(0) + ([c] + tail) == [c] + tail;
    assert ([c] + tail)[1..] == tail;
  }

  lemma QuotedReadsBack(value: string, rest: string)
    requires Boundary(rest)
    ensures Argument(Quoted(value) + rest, false) == (value, rest)
  {
    hide Escaped;
    var s := Quoted(value) + rest;
    assert s[1..] == Escaped(value, 0) + "\"" + rest;
    EscapedReadsBack(value, 0, rest);
    assert Backslashes(0) + value == value;
    assert CountBackslashes(s) == 0;
  }

  lemma JoinedStartsBlank(arguments: seq<string>)
    ensures Boundary(Joined(arguments))
  {
  }

  /** Every list of arguments, however quoted, blank or empty, is read back exactly. */
  lemma {:induction false} SplitInvertsJoined(arguments: seq<string>)
    ensures Split(Joined(arguments)) == arguments
    decreases |arguments|
  {
    hide Argument, Escaped, Boundary;
    if arguments == [] {
    } else {
      var rest := Joined(arguments[1..]);
      var s := Joined(arguments);
      JoinedStartsBlank(arguments[1..]);
      QuotedReadsBack(arguments[0], rest);
      SplitInvertsJoined(arguments[1..]);
      assert s[1..] == Quoted(arguments[0]) + rest;
      assert Split(s) == Split(s[1..]);
      assert Split(s[1..]) == [arguments[0]] + Split(rest);
    }
  }

  // ---- the program name ----

  /** A name that survives the rules for the first argument: no mark in it, no backslash at its end. */
  predicate PlainProgram(name: string) { '"' !in name && !EndsInBackslash(name) }

  lemma {:induction false} ProgramReadsQuoted(text: string, rest: string)
    requires '"' !in text && Boundary(rest)
    ensures Program(text + "\"" + rest, true) == (text, rest)
  {
    var s := text + "\"" + rest;
    if text == "" {
      assert s[1..] == rest;
    } else {
      ProgramReadsQuoted(text[1..], rest);
      assert s[1..] == text[1..] + "\"" + rest;
      assert [text[0]] + text[1..] == text;
    }
  }

  lemma {:induction false} EscapedHasNoMark(value: string, n: nat)
    requires '"' !in value
    ensures '"' !in Escaped(value, n)
    decreases |value|
  {
    if value != "" {
      EscapedHasNoMark(value[1..], if value[0] == '\\' then n + 1 else 0);
    }
  }

  predicate EndsInBackslash(value: string) { value != "" && value[|value| - 1] == '\\' }

  /** Without a mark or a backslash at the end, quoting changes nothing inside the marks. */
  lemma {:induction false} EscapedUnchanged(value: string, n: nat)
    requires '"' !in value && value != "" && !EndsInBackslash(value)
    ensures Escaped(value, n) == Backslashes(n) + value
    decreases |value|
  {
    var tail := value[1..];
    if value[0] == '\\' {
      EscapedUnchanged(tail, n + 1);
      assert Backslashes(n + 1) + tail == Backslashes(n) + value;
    } else {
      if tail == "" {
        assert Escaped(tail, 0) == "";
      } else {
        EscapedUnchanged(tail, 0);
        assert Backslashes(0) + tail == tail;
      }
      assert [value[0]] + tail == value;
      assert Backslashes(n) + [value[0]] + tail == Backslashes(n) + value;
    }
  }

  /** Backslashes at the end are doubled, so the text grows. */
  lemma {:induction false} EscapedGrows(value: string, n: nat)
    requires '"' !in value
    ensures |Escaped(value, n)| >= |value| + n
    ensures EndsInBackslash(value) ==> |Escaped(value, n)| > |value| + n
    decreases |value|
  {
    if value != "" {
      EscapedGrows(value[1..], if value[0] == '\\' then n + 1 else 0);
    }
  }

  lemma {:induction false} ProgramHasNoMark(s: string, quoting: bool)
    ensures '"' !in Program(s, quoting).0
    decreases |s|
  {
    if s == "" || (!quoting && Blank(s[0])) {
    } else {
      ProgramHasNoMark(s[1..], if s[0] == '"' then !quoting else quoting);
    }
  }

  /** The quoted program name is read back exactly when it is plain. */
  lemma ProgramReadsBackExactly(name: string, rest: string)
    requires Boundary(rest)
    ensures Program(Quoted(name) + rest, false).0 == name <==> PlainProgram(name)
    ensures PlainProgram(name) ==> Program(Quoted(name) + rest, false).1 == rest
  {
    ProgramHasNoMark(Quoted(name) + rest, false);
    if '"' !in name {
      EscapedHasNoMark(name, 0);
      EscapedGrows(name, 0);
      if name != "" && !EndsInBackslash(name) { EscapedUnchanged(name, 0); }
      var s := Quoted(name) + rest;
      assert s[1..] == Escaped(name, 0) + "\"" + rest;
      ProgramReadsQuoted(Escaped(name, 0), rest);
      assert Backslashes(0) + name == name;
    }
  }

  /** The whole command line: the program and its arguments come back as they were given. */
  lemma CommandReadsBack(executable: string, arguments: seq<string>)
    requires PlainProgram(executable)
    ensures Arguments(Quoted(executable) + Joined(arguments)) == [executable] + arguments
  {
    JoinedStartsBlank(arguments);
    ProgramReadsBackExactly(executable, Joined(arguments));
    SplitInvertsJoined(arguments);
  }
}
