/**
 * The install-state file: values quoted so that bash reads them back, appended save by
 * save. Characters stand for bytes; nothing below depends on there being only 256.
 */
module BashQuote {
  import opened Options
  import opened Text

  // ----- writing: bashQuote -----

  predicate Plain(c: char) {
    || '0' <= c <= '9' || 'A' <= c <= 'Z' || 'a' <= c <= 'z'
    || c == '_' || c == '-' || c == '.' || c == '/' || c == ':' || c == '@' || c == '+' || c == '='
  }

  function HexDigit(n: nat): char
    requires n < 16
  {
    if n < 10 then '0' + n as char else 'a' + (n - 10) as char
  }

  function Escaped(c: char): string {
    if c == '\\' then "\\\\"
    else if c == '\'' then "\\'"
    else if c == '\n' then "\\n"
    else if c == '\r' then "\\r"
    else if c == '\t' then "\\t"
    else if c as int < 0x20 || c as int == 0x7f then "\\x" + [HexDigit(c as int / 16), HexDigit(c as int % 16)]
    else [c]
  }

  function EscapedAll(s: string): string {
    if s == "" then "" else Escaped(s[0]) + EscapedAll(s[1..])
  }

  predicate AllPlain(s: string) {
    forall i :: 0 <= i < |s| ==> Plain(s[i])
  }

  function Quoted(s: string): string {
    if s == "" then "''" else if AllPlain(s) then s else "$'" + EscapedAll(s) + "'"
  }

  lemma {:induction false} EscapedGrows(s: string, i: nat)
    requires i < |s|
    ensures EscapedAll(s[..i + 1]) == EscapedAll(s[..i]) + Escaped(s[i])
    decreases i
  {
    if i == 0 {
      assert s[..1][1..] == "" && s[..0] == "";
    } else {
      assert s[..i + 1][1..] == s[1..][..i] && s[..i][1..] == s[1..][..i - 1];
      EscapedGrows(s[1..], i - 1);
    }
  }

  /** bashQuote: a loop that looks for a byte to escape, then a loop that escapes. */
  method BashQuote(s: string) returns (q: string)
    ensures q == Quoted(s)
  {
    if s == "" {
      return "''";
    }
    var plain := true;
    for i := 0 to |s|
      invariant plain && AllPlain(s[..i])
    {
      if !Plain(s[i]) {
        plain := false;
        break;
      }
    }
    if plain {
      assert s[..|s|] == s;
      return s;
    }
    var b := EscapeBytes(s);
    return "$'" + b + "'";
  }

  /** The second loop. */
  method EscapeBytes(s: string) returns (b: string)
    ensures b == EscapedAll(s)
  {
    b := "";
    for i := 0 to |s|
      invariant b == EscapedAll(s[..i])
    {
      EscapedGrows(s, i);
      b := b + Escaped(s[i]);
    }
    assert s[..|s|] == s;
  }

  // ----- reading: bash -----

  datatype Word = Word(value: string, rest: string)

  /** Bytes with a meaning of their own when not quoted; a word holding one is not read here. */
  predicate Special(c: char) {
    || c == ' ' || c == '\t' || c == '\n' || c == '|' || c == '&' || c == ';' || c == '(' || c == ')'
    || c == '<' || c == '>' || c == '\\' || c == '\'' || c == '"' || c == '$' || c == '`' || c == '~'
    || c == '*' || c == '?' || c == '[' || c == ']' || c == '{' || c == '}' || c == '!' || c == '#'
    || c == '^' || c == '%' || c == ',' || c as int == 0
  }

  function HexValue(c: char): int {
    if '0' <= c <= '9' then c as int - '0' as int
    else if 'a' <= c <= 'f' then c as int - 'a' as int + 10
    else if 'A' <= c <= 'F' then c as int - 'A' as int + 10
    else -1
  }

  predicate Octal(c: char) { '0' <= c <= '7' }

  function OctalValue(c: char): nat
    requires Octal(c)
  {
    c as int - '0' as int
  }

  function Put(s: string, w: Option<Word>): Option<Word> {
    if w.None? then None else Some(Word(s + w.value.value, w.value.rest))
  }

  function Simple(c: char): Option<char> {
    match c
    case 'a' => Some(7 as char) case 'b' => Some(8 as char)
    case 'e' => Some(27 as char) case 'E' => Some(27 as char)
    case 'f' => Some(12 as char) case 'n' => Some('\n')
    case 'r' => Some('\r') case 't' => Some('\t')
    case 'v' => Some(11 as char) case '\\' => Some('\\')
    case '\'' => Some('\'') case '"' => Some('"')
    case '?' => Some('?')
    case _ => None
  }

  /**
   * What follows a backslash in the ANSI-C form: one or two hexadecimal digits after `x`,
   * one to three octal ones, the single letters; an unknown letter keeps its backslash.
   * The Unicode and control forms are not read here.
   */
  function ReadEscape(t: string): (r: Option<Word>)
    ensures r.Some? ==> |r.value.rest| < |t|
  {
    if t == "" then None
    else if Simple(t[0]).Some? then Some(Word([Simple(t[0]).value], t[1..]))
    else if t[0] == 'x' then
      if |t| < 2 || HexValue(t[1]) < 0 then Some(Word("\\x", t[1..]))
      else if |t| < 3 || HexValue(t[2]) < 0 then Some(Word([HexValue(t[1]) as char], t[2..]))
      else Some(Word([(16 * HexValue(t[1]) + HexValue(t[2])) as char], t[3..]))
    else if Octal(t[0]) then
      if |t| < 2 || !Octal(t[1]) then Some(Word([OctalValue(t[0]) as char], t[1..]))
      else if |t| < 3 || !Octal(t[2]) then Some(Word([(8 * OctalValue(t[0]) + OctalValue(t[1])) as char], t[2..]))
      else Some(Word([((64 * OctalValue(t[0]) + 8 * OctalValue(t[1]) + OctalValue(t[2])) % 256) as char], t[3..]))
    else if t[0] in "uUc" then None
    else Some(Word("\\" + [t[0]], t[1..]))
  }

  /** The inside of `$'...'`, up to its closing quote. */
  function ReadAnsi(t: string): (r: Option<Word>)
    ensures r.Some? ==> |r.value.rest| < |t|
  {
    if t == "" then None
    else if t[0] == '\'' then Some(Word("", t[1..]))
    else if t[0] != '\\' then Put([t[0]], ReadAnsi(t[1..]))
    else
      var e := ReadEscape(t[1..]);
      if e.None? then None else Put(e.value.value, ReadAnsi(e.value.rest))
  }

  /** The inside of `'...'`. */
  function ReadSingle(t: string): (r: Option<Word>)
    ensures r.Some? ==> |r.value.rest| < |t|
  {
    if t == "" then None
    else if t[0] == '\'' then Some(Word("", t[1..]))
    else Put([t[0]], ReadSingle(t[1..]))
  }

  /** A NUL ends the text of an ANSI-C form. */
  function UpToNul(s: string): string {
    if s == "" || s[0] as int == 0 then "" else [s[0]] + UpToNul(s[1..])
  }

  /** One word up to the newline that ends its line. */
  function ReadWord(t: string): (r: Option<Word>)
    ensures r.Some? ==> |r.value.rest| < |t|
    decreases |t|
  {
    if t == "" then None
    else if t[0] == '\n' then Some(Word("", t[1..]))
    else if |t| >= 2 && t[0] == '$' && t[1] == '\'' then
      var q := ReadAnsi(t[2..]);
      if q.None? then None else Put(UpToNul(q.value.value), ReadWord(q.value.rest))
    else if t[0] == '\'' then
      var q := ReadSingle(t[1..]);
      if q.None? then None else Put(q.value.value, ReadWord(q.value.rest))
    else if Special(t[0]) then None
    else Put([t[0]], ReadWord(t[1..]))
  }

  // ----- reading back what was written -----

  lemma HexReadsBack(c: char)
    requires c as int < 0x80
    ensures HexValue(HexDigit(c as int / 16)) == c as int / 16
    ensures HexValue(HexDigit(c as int % 16)) == c as int % 16
    ensures HexDigit(c as int / 16) as int >= 0x30
  {
  }

  lemma SimpleReadsBack(e: char, t: string)
    requires Simple(e).Some?
    ensures ReadAnsi("\\" + [e] + t) == Put([Simple(e).value], ReadAnsi(t))
  {
    var w := "\\" + [e] + t;
    assert w[1..] == [e] + t && w[1..][1..] == t;
  }

  lemma HexFormReadsBack(c: char, t: string)
    requires c as int < 0x80
    ensures ReadAnsi("\\x" + [HexDigit(c as int / 16), HexDigit(c as int % 16)] + t) == Put([c], ReadAnsi(t))
  {
    HexReadsBack(c);
    var h, l := HexDigit(c as int / 16), HexDigit(c as int % 16);
    var w := "\\x" + [h, l] + t;
    var e := "x" + [h, l] + t;
    assert w[1..] == e && e[3..] == t;
    assert e[0] == 'x' && e[1] == h && e[2] == l;
    assert ReadEscape(e) == Some(Word([c], t));
  }

  lemma EscapedReadsBack(c: char, t: string)
    ensures ReadAnsi(Escaped(c) + t) == Put([c], ReadAnsi(t))
  {
    if Letter(c).Some? { LetterReadsBack(c, t); }
    else if c as int < 0x20 || c as int == 0x7f { HexFormReadsBack(c, t); }
    else { assert ([c] + t)[1..] == t; }
  }

  /** The character that stands for `c` after a backslash. */
  function Letter(c: char): Option<char> {
    if c == '\\' || c == '\'' then Some(c)
    else if c == '\n' then Some('n')
    else if c == '\r' then Some('r')
    else if c == '\t' then Some('t')
    else None
  }

  lemma LetterReadsBack(c: char, t: string)
    requires Letter(c).Some?
    ensures ReadAnsi(Escaped(c) + t) == Put([c], ReadAnsi(t))
  {
    var e := Letter(c).value;
    assert Simple(e) == Some(c);
    SimpleReadsBack(e, t);
    assert Escaped(c) == "\\" + [e];
  }

  lemma {:induction false} EscapedAllReadsBack(s: string, t: string)
    ensures ReadAnsi(EscapedAll(s) + "'" + t) == Some(Word(s, t))
    decreases |s|
  {
    if s == "" {
      assert EscapedAll(s) + "'" + t == "'" + t;
    } else {
      var rest := EscapedAll(s[1..]) + "'" + t;
      assert EscapedAll(s) + "'" + t == Escaped(s[0]) + rest;
      EscapedReadsBack(s[0], rest);
      EscapedAllReadsBack(s[1..], t);
      assert s == [s[0]] + s[1..];
    }
  }

  lemma PlainStep(c: char, t: string)
    requires Plain(c)
    ensures c as int != 0 && ReadWord([c] + t) == Put([c], ReadWord(t))
  {
    assert !Special(c);
    assert ([c] + t)[1..] == t;
  }

  lemma {:induction false} PlainReadsBack(s: string, t: string)
    requires AllPlain(s)
    ensures ReadWord(s + "\n" + t) == Some(Word(s, t)) && UpToNul(s) == s
    decreases |s|
  {
    if s == "" {
      assert s + "\n" + t == "\n" + t;
    } else {
      assert s == [s[0]] + s[1..];
      assert s + "\n" + t == [s[0]] + (s[1..] + "\n" + t);
      PlainStep(s[0], s[1..] + "\n" + t);
      PlainReadsBack(s[1..], t);
    }
  }

  lemma EmptyReadsBack(rest: string)
    ensures ReadWord("''" + "\n" + rest) == Some(Word("", rest))
  {
    var after := "\n" + rest;
    var w := "''" + "\n" + rest;
    assert w[1..] == "'" + after && w[1..][1..] == after && after[1..] == rest;
    assert ReadSingle(w[1..]) == Some(Word("", after));
    assert "" + "" == "";
  }

  lemma AnsiReadsBack(s: string, rest: string)
    ensures ReadWord("$'" + EscapedAll(s) + "'" + "\n" + rest) == Some(Word(UpToNul(s), rest))
  {
    var after := "\n" + rest;
    var w := "$'" + EscapedAll(s) + "'" + "\n" + rest;
    assert w[0] == '$' && w[1] == '\'' && w[2..] == EscapedAll(s) + "'" + after;
    EscapedAllReadsBack(s, after);
    assert after[1..] == rest;
    assert UpToNul(s) + "" == UpToNul(s);
  }

  /** Whatever was quoted, bash reads it back, up to the first NUL. */
  lemma QuotedReadsBack(s: string, rest: string)
    ensures ReadWord(Quoted(s) + "\n" + rest) == Some(Word(UpToNul(s), rest))
  {
    if s == "" {
      EmptyReadsBack(rest);
    } else if AllPlain(s) {
      PlainReadsBack(s, rest);
    } else {
      AnsiReadsBack(s, rest);
    }
  }

  lemma {:induction false} UpToNulIsAll(s: string)
    ensures UpToNul(s) == s <==> (0 as char) !in s
  {
    if s != "" {
      UpToNulIsAll(s[1..]);
      assert s == [s[0]] + s[1..];
      if s[0] as int != 0 { assert UpToNul(s)[1..] == UpToNul(s[1..]); }
    }
  }

  lemma {:induction false} EscapedHasNoNewline(s: string)
    ensures '\n' !in EscapedAll(s)
  {
    if s != "" {
      EscapedHasNoNewline(s[1..]);
      if s[0] as int < 0x80 { HexReadsBack(s[0]); }
    }
  }

  lemma QuotedHasNoNewline(s: string)
    ensures '\n' !in Quoted(s)
  {
    EscapedHasNoNewline(s);
    assert !Plain('\n');
  }

  /** Quoting is undone by bash exactly for the strings that bash can hold. */
  lemma RoundTripIffNulFree(s: string, rest: string)
    ensures ReadWord(Quoted(s) + "\n" + rest) == Some(Word(s, rest)) <==> (0 as char) !in s
  {
    QuotedReadsBack(s, rest);
    UpToNulIsAll(s);
  }

  // ----- the state file -----

  predicate NameStart(c: char) { c == '_' || 'A' <= c <= 'Z' || 'a' <= c <= 'z' }

  predicate NameChar(c: char) { NameStart(c) || '0' <= c <= '9' }

  predicate ShellName(k: string) {
    k != "" && NameStart(k[0]) && forall i :: 0 <= i < |k| ==> NameChar(k[i])
  }

  /** The text before the first `=`, and what follows it. */
  function ReadName(t: string): (r: Option<Word>)
    ensures r.Some? ==> |r.value.rest| < |t|
  {
    if t == "" then None
    else if t[0] == '=' then Some(Word("", t[1..]))
    else Put([t[0]], ReadName(t[1..]))
  }

  /** `source`: each line assigns; None where the text holds anything else. */
  function Source(t: string, env: map<string, string>): Option<map<string, string>>
    decreases |t|
  {
    if t == "" then Some(env)
    else
      var k := ReadName(t);
      if k.None? || !ShellName(k.value.value) then None
      else
        var v := ReadWord(k.value.rest);
        if v.None? then None else Source(v.value.rest, env[k.value.value := v.value.value])
  }

  function Line(k: string, v: string): string { k + "=" + Quoted(v) + "\n" }

  function Lines(keys: seq<string>, kv: map<string, string>): string
    requires forall i :: 0 <= i < |keys| ==> keys[i] in kv
  {
    if keys == [] then "" else Line(keys[0], kv[keys[0]]) + Lines(keys[1..], kv)
  }

  lemma {:induction false} NameReadsBack(k: string, t: string)
    requires forall i :: 0 <= i < |k| ==> NameChar(k[i])
    ensures ReadName(k + "=" + t) == Some(Word(k, t))
    decreases |k|
  {
    var w := k + "=" + t;
    if k == "" {
      assert w[1..] == t;
    } else {
      assert w[1..] == k[1..] + "=" + t;
      assert NameChar(k[0]);
      NameReadsBack(k[1..], t);
      assert k == [k[0]] + k[1..];
    }
  }

  lemma LineAssigns(k: string, v: string, t: string, env: map<string, string>)
    requires ShellName(k)
    ensures Source(Line(k, v) + t, env) == Source(t, env[k := UpToNul(v)])
  {
    var w := Line(k, v) + t;
    assert w == k + "=" + (Quoted(v) + "\n" + t);
    NameReadsBack(k, Quoted(v) + "\n" + t);
    QuotedReadsBack(v, t);
  }

  /** What bash can hold of a saved map. */
  function Held(kv: map<string, string>): map<string, string> {
    map k | k in kv :: UpToNul(kv[k])
  }

  function Part(keys: seq<string>, kv: map<string, string>): map<string, string> {
    map k | k in kv && k in keys :: kv[k]
  }

  lemma {:induction false} LinesAssign(keys: seq<string>, kv: map<string, string>, t: string, env: map<string, string>)
    requires Distinct(keys)
    requires forall i :: 0 <= i < |keys| ==> keys[i] in kv && ShellName(keys[i])
    ensures Source(Lines(keys, kv) + t, env) == Source(t, env + Part(keys, Held(kv)))
    decreases |keys|
  {
    if keys == [] {
      assert Lines(keys, kv) + t == t;
      assert env + Part(keys, Held(kv)) == env;
    } else {
      var k, more := keys[0], keys[1..];
      assert Lines(keys, kv) + t == Line(k, kv[k]) + (Lines(more, kv) + t);
      LineAssigns(k, kv[k], Lines(more, kv) + t, env);
      var env1 := env[k := UpToNul(kv[k])];
      LinesAssign(more, kv, t, env1);
      PartSplits(keys, Held(kv), env);
    }
  }

  lemma PartSplits(keys: seq<string>, kv: map<string, string>, env: map<string, string>)
    requires keys != [] && keys[0] in kv && keys[0] !in keys[1..]
    ensures env[keys[0] := kv[keys[0]]] + Part(keys[1..], kv) == env + Part(keys, kv)
  {
    assert keys == [keys[0]] + keys[1..];
  }

  /** A rendering of a map: one line per key, keys in order. */
  ghost predicate Renders(text: string, kv: map<string, string>) {
    exists keys :: Lists(keys, kv.Keys) && text == Lines(keys, kv)
  }

  lemma RenderedAssigns(text: string, kv: map<string, string>, t: string, env: map<string, string>)
    requires Renders(text, kv) && forall k :: k in kv ==> ShellName(k)
    ensures Source(text + t, env) == Source(t, env + Held(kv))
  {
    var keys :| Lists(keys, kv.Keys) && text == Lines(keys, kv);
    LinesAssign(keys, kv, t, env);
    PartIsAll(keys, Held(kv));
  }

  lemma PartIsAll(keys: seq<string>, kv: map<string, string>)
    requires forall k :: k in kv ==> k in keys
    ensures Part(keys, kv) == kv
  {
  }

  lemma HeldIsAll(kv: map<string, string>)
    ensures Held(kv) == kv <==> forall k :: k in kv ==> (0 as char) !in kv[k]
  {
    forall k | k in kv ensures Held(kv)[k] == kv[k] <==> (0 as char) !in kv[k] { UpToNulIsAll(kv[k]); }
    if Held(kv) == kv {
      assert forall k :: k in kv ==> Held(kv)[k] == kv[k];
    }
  }

  function Joined(texts: seq<string>): string {
    if texts == [] then "" else texts[0] + Joined(texts[1..])
  }

  /** Later maps win. */
  function Union(saves: seq<map<string, string>>): map<string, string> {
    if saves == [] then map[] else saves[0] + Union(saves[1..])
  }

  /** Shell names, and values that bash can hold. */
  ghost predicate Savable(kv: map<string, string>) {
    forall k :: k in kv ==> ShellName(k) && (0 as char) !in kv[k]
  }

  lemma SaveAssigns(text: string, kv: map<string, string>, t: string, env: map<string, string>)
    requires Renders(text, kv) && Savable(kv)
    ensures Source(text + t, env) == Source(t, env + kv)
  {
    HeldIsAll(kv);
    RenderedAssigns(text, kv, t, env);
  }

  lemma UnionIsAssociative(a: map<string, string>, b: map<string, string>, c: map<string, string>)
    ensures a + b + c == a + (b + c)
  {
  }

  /**
   * Sourcing any number of saves, one after another, gives their right-biased union over
   * what was set before.
   */
  lemma {:induction false} SourcedIsTheUnion(texts: seq<string>, saves: seq<map<string, string>>,
                                             env: map<string, string>)
    requires |texts| == |saves|
    requires forall i :: 0 <= i < |saves| ==> Renders(texts[i], saves[i]) && Savable(saves[i])
    ensures Source(Joined(texts), env) == Some(env + Union(saves))
    decreases |saves|
  {
    if saves != [] {
      SaveAssigns(texts[0], saves[0], Joined(texts[1..]), env);
      SourcedIsTheUnion(texts[1..], saves[1..], env + saves[0]);
      UnionIsAssociative(env, saves[0], Union(saves[1..]));
    } else {
      assert env + Union(saves) == env;
    }
  }

  /** One save comes back whole exactly when no value holds a NUL. */
  lemma SaveComesBackIffNulFree(text: string, kv: map<string, string>)
    requires Renders(text, kv) && forall k :: k in kv ==> ShellName(k)
    ensures Source(text, map[]) == Some(kv) <==> forall k :: k in kv ==> (0 as char) !in kv[k]
  {
    RenderedAssigns(text, kv, "", map[]);
    assert text + "" == text;
    assert map[] + Held(kv) == Held(kv);
    HeldIsAll(kv);
  }

  // ----- a file cut short -----

  /** How much of the text its first line takes; nothing if it is not read. */
  function LineLength(t: string): (n: nat)
    ensures n <= |t|
  {
    var k := ReadName(t);
    if k.None? || !ShellName(k.value.value) then 0
    else
      var v := ReadWord(k.value.rest);
      if v.None? then 0 else |t| - |v.value.rest|
  }

  /** Reading the text line by line, bash begins a line at offset `n`. */
  ghost predicate LineStarts(t: string, n: nat)
    decreases n
  {
    n == 0 || (0 < LineLength(t) <= n && LineStarts(t[LineLength(t)..], n - LineLength(t)))
  }

  /** `r` is the end of `t`. */
  predicate Ends(t: string, r: string) { |r| <= |t| && t[|t| - |r|..] == r }

  lemma EndsOfTail(t: string, n: nat, r: string)
    requires n <= |t| && Ends(t[n..], r)
    ensures Ends(t, r)
  {
    assert t[n..][|t| - n - |r|..] == t[|t| - |r|..];
  }

  lemma EscapeEnds(t: string)
    ensures ReadEscape(t).Some? ==> Ends(t, ReadEscape(t).value.rest)
  {
  }

  lemma {:induction false} AnsiEnds(t: string)
    ensures ReadAnsi(t).Some? ==> Ends(t, ReadAnsi(t).value.rest)
    decreases |t|
  {
    if t != "" && ReadAnsi(t).Some? && t[0] != '\'' {
      if t[0] != '\\' {
        AnsiEnds(t[1..]);
        EndsOfTail(t, 1, ReadAnsi(t).value.rest);
      } else {
        var e := ReadEscape(t[1..]).value;
        EscapeEnds(t[1..]);
        AnsiEnds(e.rest);
        EndsOfTail(t[1..], |t| - 1 - |e.rest|, ReadAnsi(t).value.rest);
        EndsOfTail(t, 1, ReadAnsi(t).value.rest);
      }
    }
  }

  lemma {:induction false} SingleEnds(t: string)
    ensures ReadSingle(t).Some? ==> Ends(t, ReadSingle(t).value.rest)
    decreases |t|
  {
    if t != "" && ReadSingle(t).Some? && t[0] != '\'' {
      SingleEnds(t[1..]);
      EndsOfTail(t, 1, ReadSingle(t).value.rest);
    }
  }

  lemma {:induction false} NameEnds(t: string)
    ensures ReadName(t).Some? ==> Ends(t, ReadName(t).value.rest)
    decreases |t|
  {
    if t != "" && ReadName(t).Some? && t[0] != '=' {
      NameEnds(t[1..]);
      EndsOfTail(t, 1, ReadName(t).value.rest);
    }
  }

  /** What precedes the rest is a newline. */
  predicate AfterNewline(t: string, r: string) {
    |r| < |t| && Ends(t, r) && t[|t| - |r| - 1] == '\n'
  }

  lemma AfterNewlineOfTail(t: string, n: nat, r: string)
    requires n <= |t| && AfterNewline(t[n..], r)
    ensures AfterNewline(t, r)
  {
    EndsOfTail(t, n, r);
    assert t[n..][|t| - n - |r| - 1] == t[|t| - |r| - 1];
  }

  lemma AfterNewlineOfRest(t: string, n: nat, rest: string, r: string)
    requires n <= |t| && Ends(t[n..], rest) && AfterNewline(rest, r)
    ensures AfterNewline(t, r)
  {
    AfterNewlineOfTail(t[n..], |t| - n - |rest|, r);
    AfterNewlineOfTail(t, n, r);
  }

  /** However a word is quoted, it ends at a newline. */
  lemma {:induction false} WordEndsAtNewline(t: string)
    ensures ReadWord(t).Some? ==> AfterNewline(t, ReadWord(t).value.rest)
    decreases |t|, 1
  {
    if t != "" && ReadWord(t).Some? && t[0] != '\n' {
      if |t| >= 2 && t[0] == '$' && t[1] == '\'' {
        AnsiWordEnds(t);
      } else if t[0] == '\'' {
        var q := ReadSingle(t[1..]).value;
        SingleEnds(t[1..]);
        WordEndsAtNewline(q.rest);
        AfterNewlineOfRest(t, 1, q.rest, ReadWord(t).value.rest);
      } else {
        WordEndsAtNewline(t[1..]);
        AfterNewlineOfTail(t, 1, ReadWord(t).value.rest);
      }
    }
  }

  lemma {:induction false} AnsiWordEnds(t: string)
    requires |t| >= 2 && t[0] == '$' && t[1] == '\'' && ReadWord(t).Some?
    ensures AfterNewline(t, ReadWord(t).value.rest)
    decreases |t|, 0
  {
    var q := ReadAnsi(t[2..]).value;
    AnsiEnds(t[2..]);
    WordEndsAtNewline(q.rest);
    AfterNewlineOfRest(t, 2, q.rest, ReadWord(t).value.rest);
  }

  lemma LineEndsAtNewline(t: string)
    requires LineLength(t) > 0
    ensures t[LineLength(t) - 1] == '\n'
  {
    NameEnds(t);
    WordEndsAtNewline(ReadName(t).value.rest);
    LineEnds(t, ReadName(t).value.rest, ReadWord(ReadName(t).value.rest).value.rest);
  }

  lemma LineEnds(t: string, rest: string, r: string)
    requires Ends(t, rest) && AfterNewline(rest, r)
    ensures |r| < |t| && t[|t| - |r| - 1] == '\n'
  {
    AfterNewlineOfTail(t, |t| - |rest|, r);
  }

  /** No line begins but after a newline, whatever the text. */
  lemma {:induction false} LinesStartAfterNewlines(t: string, n: nat)
    requires LineStarts(t, n) && n > 0
    ensures n <= |t| && t[n - 1] == '\n'
    decreases n
  {
    var l := LineLength(t);
    LineEndsAtNewline(t);
    if n > l { LinesStartAfterNewlines(t[l..], n - l); }
  }

  /** A file written line by line. */
  datatype Entry = Entry(key: string, value: string)

  function Written(es: seq<Entry>): string {
    if es == [] then "" else Line(es[0].key, es[0].value) + Written(es[1..])
  }

  ghost predicate Named(es: seq<Entry>) {
    forall i :: 0 <= i < |es| ==> ShellName(es[i].key)
  }

  /** A line takes all of itself. */
  lemma LineIsRead(k: string, v: string, t: string)
    requires ShellName(k)
    ensures LineLength(Line(k, v) + t) == |Line(k, v)|
  {
    assert Line(k, v) + t == k + "=" + (Quoted(v) + "\n" + t);
    NameReadsBack(k, Quoted(v) + "\n" + t);
    QuotedReadsBack(v, t);
  }

  lemma LineHasOneNewline(k: string, v: string)
    requires ShellName(k)
    ensures forall i :: 0 <= i < |Line(k, v)| - 1 ==> Line(k, v)[i] != '\n'
  {
    QuotedHasNoNewline(v);
    forall i | 0 <= i < |k| ensures k[i] != '\n' { assert NameChar(k[i]); }
  }

  lemma NewlineIsPastTheLine(line: string, more: string, n: nat)
    requires forall i :: 0 <= i < |line| - 1 ==> line[i] != '\n'
    requires 0 < n <= |line| + |more| && (line + more)[n - 1] == '\n'
    ensures n >= |line|
  {
  }

  lemma TakePast(line: string, more: string, n: nat)
    requires |line| <= n <= |line| + |more|
    ensures (line + more)[..n] == line + more[..n - |line|]
    ensures n > |line| ==> (line + more)[n - 1] == more[n - |line| - 1]
  {
  }

  lemma WrittenFirst(es: seq<Entry>, i: nat)
    requires i < |es|
    ensures Written(es[..i + 1]) == Line(es[0].key, es[0].value) + Written(es[1..][..i])
  {
    assert es[..i + 1][1..] == es[1..][..i] && es[..i + 1][0] == es[0];
  }

  /** A file cut just after a newline, or to nothing, is cut between lines. */
  lemma {:induction false} CutIsWhole(es: seq<Entry>, n: nat) returns (j: nat)
    requires Named(es) && n <= |Written(es)| && (n == 0 || Written(es)[n - 1] == '\n')
    ensures j <= |es| && Written(es)[..n] == Written(es[..j])
    decreases |es|
  {
    j := 0;
    if n > 0 {
      var line, more := Line(es[0].key, es[0].value), Written(es[1..]);
      LineHasOneNewline(es[0].key, es[0].value);
      NewlineIsPastTheLine(line, more, n);
      TakePast(line, more, n);
      var i := CutIsWhole(es[1..], n - |line|);
      j := i + 1;
      WrittenFirst(es, i);
    }
  }

  lemma StartsOneLineOn(line: string, t: string, n: nat)
    requires line != "" && LineLength(line + t) == |line| && LineStarts(t, n)
    ensures LineStarts(line + t, |line| + n)
  {
    assert (line + t)[|line|..] == t;
  }

  lemma LineThenMore(line: string, more: string, t: string)
    requires line != "" && LineLength(line + (more + t)) == |line| && LineStarts(more + t, |more|)
    ensures LineStarts(line + more + t, |line + more|)
  {
    assert line + more + t == line + (more + t) && |line + more| == |line| + |more|;
    StartsOneLineOn(line, more + t, |more|);
  }

  lemma {:induction false} LineStartsAfterWritten(es: seq<Entry>, t: string)
    requires Named(es)
    ensures LineStarts(Written(es) + t, |Written(es)|)
    decreases |es|
  {
    if es != [] {
      LineStartsAfterWritten(es[1..], t);
      LineIsRead(es[0].key, es[0].value, Written(es[1..]) + t);
      LineThenMore(Line(es[0].key, es[0].value), Written(es[1..]), t);
    }
  }

  /**
   * After a file was cut anywhere, by a short write, and more was appended: bash reads the
   * appended text as lines of its own, from its first key on, if and only if the file was
   * left empty or ending in a newline.
   */
  lemma AppendedIsReadIff(es: seq<Entry>, n: nat, t: string)
    requires Named(es) && n <= |Written(es)|
    ensures LineStarts(Written(es)[..n] + t, n) <==> n == 0 || Written(es)[n - 1] == '\n'
  {
    var f := Written(es)[..n] + t;
    if LineStarts(f, n) && n > 0 { LinesStartAfterNewlines(f, n); }
    if n == 0 || Written(es)[n - 1] == '\n' {
      var j := CutIsWhole(es, n);
      LineStartsAfterWritten(es[..j], t);
    }
  }

  /** The settings after a number of entries. */
  function Assigned(env: map<string, string>, es: seq<Entry>): map<string, string>
    decreases |es|
  {
    if es == [] then env else Assigned(env[es[0].key := UpToNul(es[0].value)], es[1..])
  }

  lemma {:induction false} WrittenAssigns(es: seq<Entry>, t: string, env: map<string, string>)
    requires Named(es)
    ensures Source(Written(es) + t, env) == Source(t, Assigned(env, es))
    decreases |es|
  {
    if es == [] {
      assert Written(es) + t == t;
    } else {
      assert Written(es) + t == Line(es[0].key, es[0].value) + (Written(es[1..]) + t);
      LineAssigns(es[0].key, es[0].value, Written(es[1..]) + t, env);
      WrittenAssigns(es[1..], t, env[es[0].key := UpToNul(es[0].value)]);
    }
  }

  /** And then everything appended takes effect, on top of the lines that were written whole. */
  lemma AppendedTakesEffect(es: seq<Entry>, n: nat, t: string, env: map<string, string>) returns (j: nat)
    requires Named(es) && n <= |Written(es)| && LineStarts(Written(es)[..n] + t, n)
    ensures j <= |es| && Written(es)[..n] == Written(es[..j])
    ensures Source(Written(es)[..n] + t, env) == Source(t, Assigned(env, es[..j]))
  {
    AppendedIsReadIff(es, n, t);
    j := CutIsWhole(es, n);
    WrittenAssigns(es[..j], t, env);
  }

  /** The saves of a file are such entries. */
  lemma {:induction false} LinesAreWritten(keys: seq<string>, kv: map<string, string>) returns (es: seq<Entry>)
    requires forall i :: 0 <= i < |keys| ==> keys[i] in kv && ShellName(keys[i])
    ensures Named(es) && Written(es) == Lines(keys, kv)
    decreases |keys|
  {
    es := [];
    if keys != [] {
      var rest := LinesAreWritten(keys[1..], kv);
      es := [Entry(keys[0], kv[keys[0]])] + rest;
      assert es[1..] == rest;
    }
  }

  /**
   * For instance, cut inside a plain value: the first line of the next save becomes the rest
   * of that value, and its own key is not set.
   */
  lemma TornWriteSwallowsTheNextLine(k: string, cut: string, k2: string, v2: string, env: map<string, string>)
    requires ShellName(k) && AllPlain(cut) && ShellName(k2) && v2 != "" && AllPlain(v2)
    ensures Source(k + "=" + cut + Line(k2, v2), env) == Some(env[k := cut + k2 + "=" + v2])
  {
    var v := cut + k2 + "=" + v2;
    forall i | 0 <= i < |k2| ensures Plain(k2[i]) { assert NameChar(k2[i]); }
    assert AllPlain(v);
    assert k + "=" + cut + Line(k2, v2) == Line(k, v) + "";
    LineAssigns(k, v, "", env);
    PlainReadsBack(v, "");
  }

  /** What each system call of a save may do. */
  datatype Fault = NoFault | OpenFails | WriteFails(written: nat) | CloseFails | ChmodFails

  class StateFile {
    var content: string
    var private: bool

    constructor ()
      ensures content == "" && !private
    {
      content, private := "", false;
    }

    /**
     * SaveState: appends, never rewrites. A short write leaves the beginning of the text;
     * a failing close or chmod leaves all of it and still reports an error.
     */
    method SaveState(kv: map<string, string>, fault: Fault) returns (ok: bool, ghost text: string)
      modifies this
      ensures Renders(text, kv)
      ensures ok <==> fault == NoFault
      ensures fault.NoFault? || fault.CloseFails? || fault.ChmodFails? ==> content == old(content) + text
      ensures fault.OpenFails? ==> content == old(content)
      ensures fault.WriteFails? ==> exists n :: 0 <= n <= |text| && content == old(content) + text[..n]
      ensures ok ==> private
      ensures !ok ==> private == old(private)
    {
      var keys := ListNames(kv.Keys);
      var b := "";
      assert keys[..0] == [];
      for i := 0 to |keys|
        invariant b == Lines(keys[..i], kv)
        invariant content == old(content) && private == old(private)
      {
        var q := BashQuote(kv[keys[i]]);
        LinesGrow(keys, i, kv);
        b := b + (keys[i] + "=" + q + "\n");
      }
      assert keys[..|keys|] == keys;
      text := b;
      if fault.OpenFails? { return false, text; }
      if fault.WriteFails? {
        var n := if fault.written < |b| then fault.written else |b|;
        content := content + b[..n];
        return false, text;
      }
      content := content + b;
      if fault.CloseFails? { return false, text; }
      if fault.ChmodFails? { return false, text; }
      private := true;
      return true, text;
    }
  }

  lemma {:induction false} LinesGrow(keys: seq<string>, i: nat, kv: map<string, string>)
    requires i < |keys| && forall j :: 0 <= j < |keys| ==> keys[j] in kv
    ensures Lines(keys[..i + 1], kv) == Lines(keys[..i], kv) + Line(keys[i], kv[keys[i]])
    decreases i
  {
    if i == 0 {
      assert keys[..1][1..] == [] && keys[..0] == [];
      AppendNothing(Line(keys[0], kv[keys[0]]));
    } else {
      LinesFirst(keys, i, kv);
      LinesFirst(keys, i - 1, kv);
      LinesGrow(keys[1..], i - 1, kv);
      Regroup(Line(keys[0], kv[keys[0]]), Lines(keys[1..][..i - 1], kv), Line(keys[i], kv[keys[i]]));
    }
  }

  lemma AppendNothing(a: string)
    ensures a + "" == a && "" + a == a
  {
  }

  lemma Regroup(a: string, b: string, c: string)
    ensures a + (b + c) == a + b + c
  {
  }

  lemma LinesFirst(keys: seq<string>, i: nat, kv: map<string, string>)
    requires i < |keys| && forall j :: 0 <= j < |keys| ==> keys[j] in kv
    ensures Lines(keys[..i + 1], kv) == Line(keys[0], kv[keys[0]]) + Lines(keys[1..][..i], kv)
  {
    assert keys[..i + 1][1..] == keys[1..][..i] && keys[..i + 1][0] == keys[0];
  }
}
