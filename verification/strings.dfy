/**
 * The text operations both bots lean on, each written out as the Python or
 * aiogram behaviour it stands for: `str.isdigit`, `int`, `str`, `str.casefold`,
 * `str.replace`, and the way aiogram's `Command` filter reads a command out of
 * a message text.
 */
module Strings {
  import opened Wrappers

  predicate IsDigit(c: char) {
    '0' <= c <= '9'
  }

  /** `s.isdigit()`: non-empty and every character a decimal digit (ASCII digits only). */
  predicate IsDigits(s: string) {
    |s| > 0 && forall i :: 0 <= i < |s| ==> IsDigit(s[i])
  }

  /** `int(s)` for a string of digits; leading zeros are allowed, as in Python. */
  function DigitsValue(s: string): nat
    requires forall i :: 0 <= i < |s| ==> IsDigit(s[i])
  {
    if |s| == 0 then 0
    else
      assert IsDigit(s[|s| - 1]);
      10 * DigitsValue(s[..|s| - 1]) + (s[|s| - 1] as int - '0' as int)
  }

  lemma DigitsValueAppend(s: string, c: char)
    requires forall i :: 0 <= i < |s| ==> IsDigit(s[i])
    requires IsDigit(c)
    ensures forall i :: 0 <= i < |s + [c]| ==> IsDigit((s + [c])[i])
    ensures DigitsValue(s + [c]) == 10 * DigitsValue(s) + (c as int - '0' as int)
  {
    assert (s + [c])[..|s|] == s;
  }

  function DigitChar(d: nat): (c: char)
    requires d < 10
    ensures IsDigit(c) && c as int - '0' as int == d
  {
    ('0' as int + d) as char
  }

  /** `str(n)` for a natural number; `int` reads it back to `n`. */
  function NatToString(n: nat): (s: string)
    ensures IsDigits(s)
    ensures DigitsValue(s) == n
    ensures |s| > 1 ==> s[0] != '0'
  {
    if n < 10 then [DigitChar(n)]
    else
      var prefix := NatToString(n / 10);
      DigitsValueAppend(prefix, DigitChar(n % 10));
      prefix + [DigitChar(n % 10)]
  }

  /**
   * `str.casefold` on one character, for the letters the bots' texts use:
   * Latin A-Z and the Cyrillic capitals А-Я and Ё map to lower case; every
   * other character is its own fold.
   */
  function FoldChar(c: char): char {
    if 'A' <= c <= 'Z' then (c as int + 32) as char
    else if 'А' <= c <= 'Я' then (c as int + 32) as char
    else if c == 'Ё' then 'ё'
    else c
  }

  predicate IsFoldedLetter(c: char) {
    'a' <= c <= 'z' || 'а' <= c <= 'я' || c == 'ё'
  }

  /** The capital letter that folds to the lower-case letter `c`. */
  function Capital(c: char): char
    requires IsFoldedLetter(c)
  {
    if c == 'ё' then 'Ё' else (c as int - 32) as char
  }

  /** `str.casefold`, character by character. */
  function CaseFold(s: string): string {
    seq(|s|, i requires 0 <= i < |s| => FoldChar(s[i]))
  }

  /** The characters that fold to `x`: its capital, if it is a letter, and `x` itself when it is already folded. */
  lemma FoldCharInverse(c: char, x: char)
    ensures FoldChar(c) == x <==>
      (IsFoldedLetter(x) && c == Capital(x)) || (c == x && FoldChar(x) == x)
  {
  }

  /** Folding a folded text changes nothing. */
  lemma CaseFoldIdempotent(s: string)
    ensures CaseFold(CaseFold(s)) == CaseFold(s)
  {
    forall i | 0 <= i < |s|
      ensures FoldChar(FoldChar(s[i])) == FoldChar(s[i])
    {
      FoldCharInverse(FoldChar(s[i]), FoldChar(s[i]));
    }
  }

  /** A text folds to `w` exactly when each character is the one in `w` or, for a letter, its capital. */
  lemma CaseFoldEquals(s: string, w: string)
    ensures CaseFold(s) == w <==>
      |s| == |w| &&
      forall i :: 0 <= i < |s| ==>
        (IsFoldedLetter(w[i]) && s[i] == Capital(w[i])) || (s[i] == w[i] && FoldChar(w[i]) == w[i])
  {
    if |s| == |w| {
      forall i | 0 <= i < |s| {
        FoldCharInverse(s[i], w[i]);
      }
    }
  }

  /** `s.replace(pat, rep)`: every occurrence of `pat`, found left to right without overlaps, becomes `rep`. */
  function Replace(s: string, pat: string, rep: string): string
    requires |pat| > 0
    decreases |s|
  {
    if |s| < |pat| then s
    else if s[..|pat|] == pat then rep + Replace(s[|pat|..], pat, rep)
    else [s[0]] + Replace(s[1..], pat, rep)
  }

  /** Text holding no character that could start `pat` is copied unchanged. */
  lemma {:induction false} ReplaceSkips(a: string, b: string, pat: string, rep: string)
    requires |pat| > 0 && pat[0] !in a
    ensures Replace(a + b, pat, rep) == a + Replace(b, pat, rep)
    decreases |a|
  {
    if a == [] {
      assert a + b == b;
    } else if |a + b| < |pat| {
      assert |b| < |pat|;
    } else {
      assert (a + b)[..|pat|][0] == a[0] != pat[0];
      assert (a + b)[1..] == a[1..] + b;
      ReplaceSkips(a[1..], b, pat, rep);
      assert [a[0]] + a[1..] == a;
    }
  }

  lemma ReplaceHits(b: string, pat: string, rep: string)
    requires |pat| > 0
    ensures Replace(pat + b, pat, rep) == rep + Replace(b, pat, rep)
  {
    assert (pat + b)[..|pat|] == pat;
    assert (pat + b)[|pat|..] == b;
  }

  /** A different placeholder of the same length, in which `pat[0]` can only stand first, is copied unchanged. */
  lemma ReplaceMisses(q: string, b: string, pat: string, rep: string)
    requires |pat| > 0 && |q| == |pat| && q != pat && pat[0] !in q[1..]
    ensures Replace(q + b, pat, rep) == q + Replace(b, pat, rep)
  {
    var s := q + b;
    assert s[..|pat|] == q;
    assert Replace(s, pat, rep) == [s[0]] + Replace(s[1..], pat, rep);
    assert s[1..] == q[1..] + b;
    ReplaceSkips(q[1..], b, pat, rep);
    assert [q[0]] + q[1..] == q;
  }

  function Concat(pieces: seq<string>): string {
    if pieces == [] then "" else pieces[0] + Concat(pieces[1..])
  }

  /** Nine pieces joined, written out. */
  lemma Concat9(p: seq<string>)
    requires |p| == 9
    ensures Concat(p) == p[0] + p[1] + p[2] + p[3] + p[4] + p[5] + p[6] + p[7] + p[8]
  {
    assert Concat(p[..1]) == p[0] by {
      ConcatSnoc(p, 0);
      assert p[..0] == [];
    }
    assert Concat(p[..2]) == p[0] + p[1] by { ConcatSnoc(p, 1); }
    assert Concat(p[..3]) == p[0] + p[1] + p[2] by { ConcatSnoc(p, 2); }
    assert Concat(p[..4]) == p[0] + p[1] + p[2] + p[3] by { ConcatSnoc(p, 3); }
    assert Concat(p[..5]) == p[0] + p[1] + p[2] + p[3] + p[4] by { ConcatSnoc(p, 4); }
    assert Concat(p[..6]) == p[0] + p[1] + p[2] + p[3] + p[4] + p[5] by { ConcatSnoc(p, 5); }
    assert Concat(p[..7]) == p[0] + p[1] + p[2] + p[3] + p[4] + p[5] + p[6] by { ConcatSnoc(p, 6); }
    assert Concat(p[..8]) == p[0] + p[1] + p[2] + p[3] + p[4] + p[5] + p[6] + p[7] by { ConcatSnoc(p, 7); }
    assert Concat(p[..9]) == p[0] + p[1] + p[2] + p[3] + p[4] + p[5] + p[6] + p[7] + p[8] by { ConcatSnoc(p, 8); }
    assert p[..9] == p;
  }

  /** Joining the first `k + 1` pieces is joining the first `k` and then piece `k`. */
  lemma ConcatSnoc(p: seq<string>, k: nat)
    requires k < |p|
    ensures Concat(p[..k + 1]) == Concat(p[..k]) + p[k]
  {
    assert p[..k + 1] == p[..k] + [p[k]];
    ConcatAppend(p[..k], [p[k]]);
    assert [p[k]][1..] == [];
  }

  lemma {:induction false} ConcatAppend(a: seq<string>, b: seq<string>)
    ensures Concat(a + b) == Concat(a) + Concat(b)
    decreases |a|
  {
    if a == [] {
      assert a + b == b;
    } else {
      assert (a + b)[1..] == a[1..] + b;
      ConcatAppend(a[1..], b);
    }
  }

  /** A piece that `Replace` treats as a unit: `pat` itself, text without `pat[0]`, or a same-length non-match. */
  predicate Separable(piece: string, pat: string)
    requires |pat| > 0
  {
    piece == pat || pat[0] !in piece || (|piece| == |pat| && pat[0] !in piece[1..])
  }

  /** The pieces with every piece equal to `pat` swapped for `rep`. */
  function Substitute(pieces: seq<string>, pat: string, rep: string): seq<string> {
    seq(|pieces|, i requires 0 <= i < |pieces| => if pieces[i] == pat then rep else pieces[i])
  }

  /** Replacing in a text cut into separable pieces replaces exactly the pieces equal to `pat`. */
  lemma {:induction false} ReplacePieces(pieces: seq<string>, pat: string, rep: string)
    requires |pat| > 0
    requires forall i :: 0 <= i < |pieces| ==> Separable(pieces[i], pat)
    ensures Replace(Concat(pieces), pat, rep) == Concat(Substitute(pieces, pat, rep))
    decreases |pieces|
  {
    if pieces != [] {
      var p, rest := pieces[0], pieces[1..];
      ReplacePieces(rest, pat, rep);
      assert Substitute(pieces, pat, rep)[1..] == Substitute(rest, pat, rep);
      if p == pat {
        ReplaceHits(Concat(rest), pat, rep);
      } else if pat[0] !in p {
        ReplaceSkips(p, Concat(rest), pat, rep);
      } else {
        ReplaceMisses(p, Concat(rest), pat, rep);
      }
    }
  }

  /** The characters `str.split()` splits on: those for which `str.isspace` holds. */
  predicate IsSpace(c: char) {
    || '\t' <= c <= '\r'
    || '\U{1C}' <= c <= ' '
    || c == '\U{85}' || c == '\U{A0}' || c == '\U{1680}'
    || '\U{2000}' <= c <= '\U{200A}'
    || c == '\U{2028}' || c == '\U{2029}' || c == '\U{202F}' || c == '\U{205F}' || c == '\U{3000}'
  }

  function TrimStart(s: string): string {
    if |s| > 0 && IsSpace(s[0]) then TrimStart(s[1..]) else s
  }

  function FirstWord(s: string): string {
    if |s| == 0 || IsSpace(s[0]) then "" else [s[0]] + FirstWord(s[1..])
  }

  function BeforeAt(s: string): string {
    if |s| == 0 || s[0] == '@' then "" else [s[0]] + BeforeAt(s[1..])
  }

  /**
   * The command aiogram's `Command` filter reads from a message text: the first
   * word, when it starts with "/", without the "/" and without any "@mention".
   */
  function CommandOf(text: string): Option<string> {
    var word := FirstWord(TrimStart(text));
    if |word| > 0 && word[0] == '/' then Some(BeforeAt(word[1..])) else None
  }

  predicate IsCommand(text: string, name: string) {
    CommandOf(text) == Some(name)
  }

  /** The cancel filter both bots register: `/cancel`, or a text that folds to "cancel". */
  predicate IsCancel(text: string) {
    IsCommand(text, "cancel") || CaseFold(text) == "cancel"
  }

  /**
   * A leading non-breaking space is skipped like any other, and a command
   * ends at one: "\u00a0/cancel" cancels, and "/cancel\u00a0now" is the command `cancel`.
   */
  lemma UnicodeSpacesSplit()
    ensures IsCancel("\U{A0}/cancel")
    ensures CommandOf("/cancel\U{A0}now") == Some("cancel")
  {
    CancelWord();
    var t := "\U{A0}/cancel";
    assert IsSpace(t[0]) && t[1..] == "/cancel";
    assert TrimStart(t) == TrimStart("/cancel");
    var u := "/cancel\U{A0}now";
    assert u == "/cancel" + u[7..] && IsSpace(u[7]);
    FirstWordStops("/cancel", u[7..]);
  }

  /** "/cancel" is one word, the command `cancel`. */
  lemma CancelWord()
    ensures TrimStart("/cancel") == "/cancel" && FirstWord("/cancel") == "/cancel"
    ensures forall i :: 0 <= i < |"/cancel"| ==> !IsSpace("/cancel"[i])
    ensures BeforeAt("cancel") == "cancel" && "/cancel"[1..] == "cancel"
  {
    FirstWordWhole("/cancel");
    BeforeAtWhole("cancel");
  }

  /** The first word ends at the first space. */
  lemma {:induction false} FirstWordStops(w: string, rest: string)
    requires forall i :: 0 <= i < |w| ==> !IsSpace(w[i])
    requires |rest| > 0 && IsSpace(rest[0])
    ensures FirstWord(w + rest) == w
  {
    if |w| > 0 {
      assert (w + rest)[1..] == w[1..] + rest;
      FirstWordStops(w[1..], rest);
      assert [w[0]] + w[1..] == w;
    } else {
      assert w + rest == rest;
    }
  }

  /** A text whose first character is neither a space, "/" nor a letter folding to "c" carries no command and is no cancel. */
  lemma NoCommandNoCancel(text: string)
    requires |text| > 0 && text[0] != '/' && !IsSpace(text[0]) && FoldChar(text[0]) != 'c'
    ensures CommandOf(text) == None && !IsCancel(text)
  {
    PlainTextIsNoCommand(text);
    assert CaseFold(text)[0] == FoldChar(text[0]);
  }

  /** A text that starts with neither a space nor "/" carries no command. */
  lemma PlainTextIsNoCommand(text: string)
    requires |text| > 0 && text[0] != '/' && !IsSpace(text[0])
    ensures CommandOf(text) == None
  {
  }

  /** Folding keeps "/" and the spaces, so a text whose fold starts with neither carries no command. */
  lemma FoldedPlainTextIsNoCommand(text: string)
    requires |text| > 0 && CaseFold(text)[0] != '/' && !IsSpace(CaseFold(text)[0])
    ensures CommandOf(text) == None
  {
    assert CaseFold(text)[0] == FoldChar(text[0]);
    PlainTextIsNoCommand(text);
  }

  /** "/name", typed alone, is the command `name`. */
  lemma {:induction false} SlashNameIsCommand(name: string)
    requires forall i :: 0 <= i < |name| ==> !IsSpace(name[i]) && name[i] != '@'
    ensures IsCommand("/" + name, name)
  {
    FirstWordWhole("/" + name);
    BeforeAtWhole(name);
    assert ("/" + name)[1..] == name;
  }

  lemma {:induction false} FirstWordWhole(s: string)
    requires forall i :: 0 <= i < |s| ==> !IsSpace(s[i])
    ensures FirstWord(s) == s && TrimStart(s) == s
  {
    if |s| > 0 {
      FirstWordWhole(s[1..]);
      assert [s[0]] + s[1..] == s;
    }
  }

  lemma {:induction false} BeforeAtWhole(s: string)
    requires forall i :: 0 <= i < |s| ==> s[i] != '@'
    ensures BeforeAt(s) == s
  {
    if |s| > 0 {
      BeforeAtWhole(s[1..]);
      assert [s[0]] + s[1..] == s;
    }
  }
}
