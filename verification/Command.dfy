/** Rendering a program and its arguments as one shell command, and what a POSIX shell reads back from it
 *  (sections 2.2.1, 2.2.2, 2.3, 2.4 and 2.9.1 of the Shell Command Language).
 */
module Command {
  import opened Optional

  // ---- Rendering

  /** Unicode's White_Space property. */
  predicate IsWhitespace(c: char) {
    || '\U{9}' <= c <= '\U{d}' || c == ' ' || c == '\U{85}' || c == '\U{a0}' || c == '\U{1680}'
    || '\U{2000}' <= c <= '\U{200a}' || c in {'\U{2028}', '\U{2029}', '\U{202f}', '\U{205f}', '\U{3000}'}
  }

  predicate NeedsQuotes(arg: string) {
    arg == "" || exists c | c in arg :: IsWhitespace(c) || c in "'\"\\$`"
  }

  /** Every quote leaves the quotes, is written with a backslash, and enters them again. */
  function Escaped(arg: string): string {
    if arg == "" then ""
    else (if arg[0] == '\'' then "'\\''" else [arg[0]]) + Escaped(arg[1..])
  }

  function Rendered(arg: string): string { if NeedsQuotes(arg) then "'" + Escaped(arg) + "'" else arg }

  function Format(program: string, args: seq<string>): string {
    if args == [] then program
    else Format(program, args[..|args| - 1]) + " " + Rendered(args[|args| - 1])
  }

  method FormatCommand(program: string, args: seq<string>) returns (out: string)
    ensures out == Format(program, args)
  {
    out := program;
    var i := 0;
    while i < |args|
      invariant 0 <= i <= |args| && out == Format(program, args[..i])
    {
      assert args[..i + 1][..i] == args[..i];
      ghost var was := out;
      out := out + " ";
      if NeedsQuotes(args[i]) {
        out := out + "'";
        out := out + Escaped(args[i]);
        out := out + "'";
        assert out == was + " " + ("'" + Escaped(args[i]) + "'");
      } else {
        out := out + args[i];
      }
      i := i + 1;
    }
    assert args[..i] == args;
  }

  // ---- Reading back

  datatype Mode = Plain | InQuotes | AfterBackslash

  /** The words so far and the one being read; or that a shell would do more, or something else, than split
   *  and unquote.
   */
  datatype Reading = Reading(words: seq<string>, word: Option<string>, mode: Mode) | More

  predicate IsBlank(c: char) { c in " \t\n" }

  /** Characters that are operators, start an expansion or a pattern, or quote in another way. */
  predicate IsSpecial(c: char) { c in "|&;<>()$`\"*?[" }

  /** Characters that mean more at the start of a word: a comment, and somebody's home directory. */
  predicate IsSpecialFirst(c: char) { c in "#~" }

  function Taken(r: Reading): string
    requires r.Reading?
  {
    if r.word.Some? then r.word.value else ""
  }

  function Flushed(r: Reading): Reading
    requires r.Reading?
  {
    if r.word.Some? then Reading(r.words + [r.word.value], None, Plain) else r
  }

  function Read1(r: Reading, c: char): Reading {
    if r.More? then More
    else
      match r.mode
      case Plain =>
        if IsBlank(c) then Flushed(r)
        else if c == '\'' then r.(word := Some(Taken(r)), mode := InQuotes)
        else if c == '\\' then r.(mode := AfterBackslash)
        else if IsSpecial(c) || (r.word.None? && IsSpecialFirst(c)) then More
        else r.(word := Some(Taken(r) + [c]))
      case InQuotes =>
        if c == '\'' then r.(mode := Plain) else r.(word := Some(Taken(r) + [c]))
      case AfterBackslash =>
        if c == '\n' then r.(mode := Plain) else r.(word := Some(Taken(r) + [c]), mode := Plain)
  }

  function Read(r: Reading, s: string): Reading
    decreases |s|
  {
    if s == "" then r else Read(Read1(r, s[0]), s[1..])
  }

  /** The words of a command, when all a shell does to find them is split and unquote. */
  function Words(s: string): Option<seq<string>> {
    var r := Read(Reading([], None, Plain), s);
    if r.More? || r.mode != Plain then None else Some(Flushed(r).words)
  }

  // ---- Round trip

  lemma {:induction false} ReadInTwo(r: Reading, s: string, t: string)
    ensures Read(r, s + t) == Read(Read(r, s), t)
    decreases |s|
  {
    if s == "" {
      assert s + t == t;
    } else {
      assert (s + t)[0] == s[0] && (s + t)[1..] == s[1..] + t;
      ReadInTwo(Read1(r, s[0]), s[1..], t);
    }
  }

  lemma {:induction false} MoreStays(s: string)
    ensures Read(More, s) == More
  {
    if s != "" { MoreStays(s[1..]); }
  }

  /** Inside quotes an escaped argument reads as the argument. */
  lemma {:induction false} EscapedReadsBack(words: seq<string>, w: string, arg: string)
    ensures Read(Reading(words, Some(w), InQuotes), Escaped(arg)) == Reading(words, Some(w + arg), InQuotes)
    decreases |arg|
  {
    if arg == "" {
      assert w + arg == w;
    } else {
      var r := Reading(words, Some(w), InQuotes);
      var head := if arg[0] == '\'' then "'\\''" else [arg[0]];
      ReadInTwo(r, head, Escaped(arg[1..]));
      HeadReadsBack(words, w, arg[0]);
      EscapedReadsBack(words, w + [arg[0]], arg[1..]);
      assert w + [arg[0]] + arg[1..] == w + arg;
    }
  }

  lemma HeadReadsBack(words: seq<string>, w: string, c: char)
    ensures Read(Reading(words, Some(w), InQuotes), if c == '\'' then "'\\''" else [c])
      == Reading(words, Some(w + [c]), InQuotes)
  {
    var r := Reading(words, Some(w), InQuotes);
    if c == '\'' {
      var s := "'\\''";
      assert s[1..] == "\\''" && s[1..][1..] == "''" && s[1..][1..][1..] == "'" && s[1..][1..][1..][1..] == "";
      var r1 := Read1(r, s[0]);
      var r2 := Read1(r1, s[1]);
      var r3 := Read1(r2, s[2]);
      assert Read1(r3, s[3]) == Reading(words, Some(w + [c]), InQuotes);
      assert Read(r3, "'") == Read(Read1(r3, '\''), "");
      assert Read(r2, "''") == Read(r3, "'");
      assert Read(r1, "\\''") == Read(r2, "''");
    } else {
      assert Read(r, [c]) == Read(Read1(r, c), "");
    }
  }

  /** A bare word reads as itself when nothing in it is special where it stands, and otherwise not at all. */
  lemma {:induction false} BareReadsBack(words: seq<string>, w: Option<string>, arg: string)
    requires forall c | c in arg :: !IsBlank(c) && c != '\'' && c != '\\'
    requires arg != ""
    ensures
      var read := Read(Reading(words, w, Plain), arg);
      if (w.None? && IsSpecialFirst(arg[0])) || exists c | c in arg :: IsSpecial(c) then read == More
      else read == Reading(words, Some((if w.Some? then w.value else "") + arg), Plain)
    decreases |arg|
  {
    var r := Reading(words, w, Plain);
    assert arg == [arg[0]] + arg[1..];
    assert arg[0] in arg;
    if IsSpecial(arg[0]) || (w.None? && IsSpecialFirst(arg[0])) {
      MoreStays(arg[1..]);
    } else if arg[1..] == "" {
      assert arg == [arg[0]];
    } else {
      BareReadsBack(words, Some(Taken(r) + [arg[0]]), arg[1..]);
      assert Taken(r) + [arg[0]] + arg[1..] == Taken(r) + arg;
    }
  }

  /** Left without quotes although something in it means more to a shell. */
  predicate Unprotected(arg: string) {
    !NeedsQuotes(arg) && (IsSpecialFirst(arg[0]) || exists c | c in arg :: IsSpecial(c))
  }

  /** What stands for itself without quotes. */
  predicate Ordinary(word: string) {
    && word != "" && !IsSpecialFirst(word[0])
    && forall c | c in word :: !IsBlank(c) && c !in "'\\" && !IsSpecial(c)
  }

  const RESERVED: seq<string> :=
    ["!", "{", "}", "case", "do", "done", "elif", "else", "esac", "fi", "for", "if", "in", "then", "until", "while"]

  predicate IsNameChar(c: char) { 'a' <= c <= 'z' || 'A' <= c <= 'Z' || c == '_' || '0' <= c <= '9' }

  /** A name and an equals sign: as the first word of a command, an assignment. */
  predicate IsAssignment(word: string) {
    exists n | 0 < n < |word| ::
      word[n] == '=' && !('0' <= word[0] <= '9') && forall k | 0 <= k < n :: IsNameChar(word[k])
  }

  /** What a shell takes for the name of a command as it stands. */
  predicate Bare(program: string) { Ordinary(program) && program !in RESERVED && !IsAssignment(program) }

  lemma RenderedReadsBack(words: seq<string>, arg: string)
    ensures Read(Reading(words, None, Plain), Rendered(arg)) ==
      if Unprotected(arg) then More else Reading(words, Some(arg), Plain)
  {
    var r := Reading(words, None, Plain);
    if NeedsQuotes(arg) {
      var q := Read1(r, '\'');
      assert ("'" + Escaped(arg) + "'")[1..] == Escaped(arg) + "'";
      ReadInTwo(q, Escaped(arg), "'");
      EscapedReadsBack(words, "", arg);
      assert "" + arg == arg;
      var e := Reading(words, Some(arg), InQuotes);
      assert Read(e, "'") == Read(Read1(e, '\''), "");
    } else {
      BareReadsBack(words, None, arg);
      assert "" + arg == arg;
    }
  }

  /** A blank ends the word before it. */
  lemma BlankEndsAWord(words: seq<string>, w: string, rest: string)
    ensures Read(Reading(words, Some(w), Plain), " " + rest) == Read(Reading(words + [w], None, Plain), rest)
  {
    assert (" " + rest)[1..] == rest;
    assert Read1(Reading(words, Some(w), Plain), ' ') == Reading(words + [w], None, Plain);
  }

  lemma {:induction false} FormatReadsBack(program: string, args: seq<string>)
    requires Bare(program)
    ensures
      var read := Read(Reading([], None, Plain), Format(program, args));
      if exists a | a in args :: Unprotected(a) then read == More
      else read.Reading? && read.mode == Plain && read.word.Some? && read.words + [read.word.value] == [program] + args
  {
    if args == [] {
      BareReadsBack([], None, program);
      assert "" + program == program;
    } else {
      var n := |args| - 1;
      FormatReadsBack(program, args[..n]);
      var start := Reading([], None, Plain);
      var most := Read(start, Format(program, args[..n]));
      assert Format(program, args) == Format(program, args[..n]) + (" " + Rendered(args[n]));
      ReadInTwo(start, Format(program, args[..n]), " " + Rendered(args[n]));
      assert args == args[..n] + [args[n]];
      if most.More? {
        MoreStays(" " + Rendered(args[n]));
      } else {
        BlankEndsAWord(most.words, most.word.value, Rendered(args[n]));
        RenderedReadsBack(most.words + [most.word.value], args[n]);
      }
    }
  }

  /** A shell finds the program and every argument, by splitting and unquoting alone, exactly when no argument
   *  is left without quotes around something that means more to it there.
   */
  lemma CommandsReadBack(program: string, args: seq<string>)
    requires Bare(program)
    ensures Words(Format(program, args)) == Some([program] + args) <==> forall a | a in args :: !Unprotected(a)
  {
    FormatReadsBack(program, args);
  }

  lemma TwoBareWords(p: string, q: string)
    requires Ordinary(p) && Ordinary(q)
    ensures Read(Reading([], None, Plain), p + " " + q) == Reading([p], Some(q), Plain)
  {
    var start := Reading([], None, Plain);
    assert p + " " + q == p + (" " + q);
    ReadInTwo(start, p, " " + q);
    BareReadsBack([], None, p);
    assert "" + p == p;
    BlankEndsAWord([], p, q);
    BareReadsBack([p], None, q);
    assert "" + q == q;
    assert [] + [p] == [p];
  }

  /** The program itself is never quoted: one with a space in its path is read back as two words. */
  lemma ProgramIsNotQuoted(p: string, q: string)
    requires Bare(p) && Ordinary(q)
    ensures Words(Format(p + " " + q, [])) == Some([p, q])
  {
    TwoBareWords(p, q);
    assert [p] + [q] == [p, q];
  }
}
