/**
 * `process_text_for_whatsapp`: two regular-expression substitutions and a
 * `strip()`, each written as a left-to-right scanner with the semantics of
 * Python's `re.sub`: the leftmost match wins, `.*?` takes the shortest
 * possible text, `.` does not match a newline, matches do not overlap, and
 * scanning resumes just after the previous match.
 */
module TextFormat {
  import opened JsonValue

  /** U+3010 LEFT BLACK LENTICULAR BRACKET, `【`. */
  const Open: char := '\U{3010}'
  /** U+3011 RIGHT BLACK LENTICULAR BRACKET, `】`. */
  const Close: char := '\U{3011}'

  /**
   * The characters Python's `str.isspace()` accepts, and hence the ones
   * `str.strip()` removes: U+0009..U+000D, U+001C..U+0020, U+0085, U+00A0,
   * U+1680, U+2000..U+200A, U+2028, U+2029, U+202F, U+205F and U+3000.
   */
  predicate IsSpace(c: char) {
    || ('\t' <= c <= '\r')
    || ('\U{1C}' <= c <= ' ')
    || c == '\U{85}' || c == '\U{A0}' || c == '\U{1680}'
    || ('\U{2000}' <= c <= '\U{200A}')
    || c == '\U{2028}' || c == '\U{2029}' || c == '\U{202F}' || c == '\U{205F}' || c == '\U{3000}'
  }

  predicate AllSpace(s: string) {
    forall k :: 0 <= k < |s| ==> IsSpace(s[k])
  }

  // ---------------------------------------------------------------------------
  // Pass 1: re.sub(r"\【.*?\】", "", text)
  // ---------------------------------------------------------------------------

  /**
   * Where `.*?\】` ends when tried from index `i`: the first `】` at or after
   * `i`, provided no newline comes before it; None when a newline or the end
   * of the text comes first.
   */
  function CloseFrom(s: string, i: nat): (r: Option<nat>)
    requires i <= |s|
    decreases |s| - i
    ensures r.Some? ==> i <= r.value < |s| && s[r.value] == Close
                        && Close !in s[i..r.value] && '\n' !in s[i..r.value]
    ensures r.None? ==> forall k :: i <= k < |s| && s[k] == Close ==> '\n' in s[i..k]
  {
    if i == |s| then None
    else if s[i] == Close then Some(i)
    else if s[i] == '\n' then None
    else
      var r := CloseFrom(s, i + 1);
      assert r.Some? ==> s[i..r.value] == [s[i]] + s[i + 1..r.value];
      assert forall k :: i + 1 <= k <= |s| ==> s[i..k] == [s[i]] + s[i + 1..k];
      r
  }

  /** The first substitution: every `【...】` span on one line is deleted. */
  function RemoveBracketSpans(s: string): (r: string)
    ensures |r| <= |s|
    decreases |s|
  {
    if s == [] then []
    else if s[0] == Open && CloseFrom(s, 1).Some? then RemoveBracketSpans(s[CloseFrom(s, 1).value + 1..])
    else [s[0]] + RemoveBracketSpans(s[1..])
  }

  /** No `【` is followed by a `】` on the same line: the pattern finds no match. */
  predicate NoBracketSpan(s: string) {
    forall i, j :: 0 <= i < j < |s| && s[i] == Open && s[j] == Close ==> '\n' in s[i + 1..j]
  }

  /** Every `】` comes after a newline. */
  predicate NoCloseOnFirstLine(s: string) {
    forall k :: 0 <= k < |s| && s[k] == Close ==> '\n' in s[..k]
  }

  /** A `【` whose closing `】` is found on its line is a match. */
  lemma SpanAtFront(s: string)
    requires s != [] && s[0] == Open
    ensures CloseFrom(s, 1).Some? ==> !NoBracketSpan(s)
  {
    if CloseFrom(s, 1).Some? {
      var j := CloseFrom(s, 1).value;
      assert s[0] == Open && s[j] == Close && '\n' !in s[1..j];
    }
  }

  /** A `【` whose closing `】` is found on its line puts a `】` on the first line. */
  lemma CloseOnFirstLineAtFront(s: string)
    requires s != [] && s[0] == Open
    ensures CloseFrom(s, 1).Some? ==> !NoCloseOnFirstLine(s)
  {
    if CloseFrom(s, 1).Some? {
      var j := CloseFrom(s, 1).value;
      assert s[..j] == [s[0]] + s[1..j];
      assert s[j] == Close && '\n' !in s[..j];
    }
  }

  /** Deleting spans never brings a `】` up to the first line. */
  lemma {:induction false} NoCloseOnFirstLineKept(t: string)
    requires NoCloseOnFirstLine(t)
    ensures NoCloseOnFirstLine(RemoveBracketSpans(t))
    decreases |t|
  {
    if t != [] {
      if t[0] == Open {
        CloseOnFirstLineAtFront(t);
      }
      var rest := RemoveBracketSpans(t[1..]);
      var r := RemoveBracketSpans(t);
      assert r == [t[0]] + rest;
      if t[0] == '\n' {
        forall k | 0 <= k < |r| && r[k] == Close ensures '\n' in r[..k] {
          assert r[..k][0] == '\n';
        }
      } else {
        forall k | 0 <= k < |t| - 1 && t[1..][k] == Close ensures '\n' in t[1..][..k] {
          assert t[k + 1] == Close;
          assert t[..k + 1] == [t[0]] + t[1..][..k];
        }
        NoCloseOnFirstLineKept(t[1..]);
        forall k | 0 <= k < |r| && r[k] == Close ensures '\n' in r[..k] {
          assert r[k] == rest[k - 1];
          assert r[..k] == [t[0]] + rest[..k - 1];
        }
      }
    }
  }

  /**
   * Putting one character in front of a match-free text keeps it match-free,
   * unless the character is a `【` and a `】` stands on the text's first line.
   */
  lemma ConsNoSpan(c: char, rest: string)
    requires NoBracketSpan(rest)
    requires c == Open ==> NoCloseOnFirstLine(rest)
    ensures NoBracketSpan([c] + rest)
  {
    var r := [c] + rest;
    forall i, j | 0 <= i < j < |r| && r[i] == Open && r[j] == Close ensures '\n' in r[i + 1..j] {
      assert r[j] == rest[j - 1];
      if i == 0 {
        assert r[1..j] == rest[..j - 1];
      } else {
        assert r[i] == rest[i - 1];
        assert r[i + 1..j] == rest[i..j - 1];
      }
    }
  }

  /** After the first substitution no match is left: the pattern finds nothing in its output. */
  lemma {:induction false} RemovalLeavesNoSpan(s: string)
    ensures NoBracketSpan(RemoveBracketSpans(s))
    decreases |s|
  {
    if s == [] {
    } else if s[0] == Open && CloseFrom(s, 1).Some? {
      RemovalLeavesNoSpan(s[CloseFrom(s, 1).value + 1..]);
    } else {
      var t := s[1..];
      RemovalLeavesNoSpan(t);
      if s[0] == Open {
        forall k | 0 <= k < |t| && t[k] == Close ensures '\n' in t[..k] {
          assert s[k + 1] == Close;
          assert t[..k] == s[1..k + 1];
        }
        NoCloseOnFirstLineKept(t);
      }
      ConsNoSpan(s[0], RemoveBracketSpans(t));
    }
  }

  /** Text the pattern does not match comes through the first substitution unchanged. */
  lemma {:induction false} SpanFreeUnchanged(s: string)
    requires NoBracketSpan(s)
    ensures RemoveBracketSpans(s) == s
    decreases |s|
  {
    if s != [] {
      if s[0] == Open {
        SpanAtFront(s);
      }
      var t := s[1..];
      forall i, j | 0 <= i < j < |t| && t[i] == Open && t[j] == Close ensures '\n' in t[i + 1..j] {
        assert s[i + 1] == Open && s[j + 1] == Close;
        assert t[i + 1..j] == s[i + 2..j + 1];
      }
      SpanFreeUnchanged(t);
      assert RemoveBracketSpans(s) == [s[0]] + t;
    }
  }

  /**
   * The first substitution changes a text exactly when the pattern matches
   * in it, and applying it a second time changes nothing.
   */
  lemma RemovalIdempotent(s: string)
    ensures RemoveBracketSpans(s) == s <==> NoBracketSpan(s)
    ensures RemoveBracketSpans(RemoveBracketSpans(s)) == RemoveBracketSpans(s)
  {
    RemovalLeavesNoSpan(s);
    SpanFreeUnchanged(RemoveBracketSpans(s));
    if NoBracketSpan(s) {
      SpanFreeUnchanged(s);
    }
  }

  /**
   * A single-line span with no `】` inside (its shortest match) is deleted,
   * and scanning goes on right after its `】`.
   */
  lemma RemoveOneSpan(x: string, rest: string)
    requires Close !in x && '\n' !in x
    ensures RemoveBracketSpans([Open] + x + [Close] + rest) == RemoveBracketSpans(rest)
  {
    var s := [Open] + x + [Close] + rest;
    var j := |x| + 1;
    assert s[1..j] == x && s[j] == Close;
    assert forall k :: 1 <= k < j ==> s[k] == x[k - 1];
    assert CloseFrom(s, 1).Some?;
    assert CloseFrom(s, 1).value == j;
    assert s[j + 1..] == rest;
  }

  /** Text before the first `【` is copied through the first substitution unchanged. */
  lemma {:induction false} PlainPrefixKept(a: string, b: string)
    requires Open !in a
    ensures RemoveBracketSpans(a + b) == a + RemoveBracketSpans(b)
    decreases |a|
  {
    if a != [] {
      assert (a + b)[0] == a[0] && (a + b)[1..] == a[1..] + b;
      PlainPrefixKept(a[1..], b);
      assert a == [a[0]] + a[1..];
    } else {
      assert a + b == b;
    }
  }

  /** A `【` whose line holds no `】` after it is no match: it is kept, and scanning goes on after it. */
  lemma UnclosedOpenKept(rest: string)
    requires NoCloseOnFirstLine(rest)
    ensures RemoveBracketSpans([Open] + rest) == [Open] + RemoveBracketSpans(rest)
  {
    ClosedOpenPutsCloseOnLine(rest);
    assert ([Open] + rest)[1..] == rest;
  }

  /** A `【` whose `】` is found on its line puts that `】` on the first line of the text after it. */
  lemma ClosedOpenPutsCloseOnLine(rest: string)
    ensures CloseFrom([Open] + rest, 1).Some? ==> !NoCloseOnFirstLine(rest)
  {
    var s := [Open] + rest;
    if CloseFrom(s, 1).Some? {
      var j := CloseFrom(s, 1).value;
      assert rest[j - 1] == Close;
      assert rest[..j - 1] == s[1..j];
    }
  }

  // ---------------------------------------------------------------------------
  // strip()
  // ---------------------------------------------------------------------------

  /** How many whitespace characters open `s`. */
  function Lead(s: string): (n: nat)
    ensures n <= |s| && AllSpace(s[..n])
    ensures n == |s| || !IsSpace(s[n])
  {
    if s != [] && IsSpace(s[0]) then
      var n := 1 + Lead(s[1..]);
      assert s[..n] == [s[0]] + s[1..][..n - 1];
      n
    else 0
  }

  /** `s` without its trailing whitespace. */
  function TrimEnd(s: string): (r: string)
    ensures |r| <= |s| && r == s[..|r|] && AllSpace(s[|r|..])
    ensures r == [] || !IsSpace(r[|r| - 1])
  {
    if s != [] && IsSpace(s[|s| - 1]) then
      var r := TrimEnd(s[..|s| - 1]);
      assert s[|r|..] == s[..|s| - 1][|r|..] + [s[|s| - 1]];
      r
    else s
  }

  /**
   * `s.strip()`: the slice of `s` left when the whitespace at both ends is
   * removed; it starts and ends with a non-whitespace character, or is empty.
   */
  function Strip(s: string): (r: string)
    ensures Lead(s) + |r| <= |s| && r == s[Lead(s)..Lead(s) + |r|]
    ensures AllSpace(s[..Lead(s)]) && AllSpace(s[Lead(s) + |r|..])
    ensures r == [] || (!IsSpace(r[0]) && !IsSpace(r[|r| - 1]))
  {
    var n := Lead(s);
    var r := TrimEnd(s[n..]);
    assert s[n + |r|..] == s[n..][|r|..];
    r
  }

  // ---------------------------------------------------------------------------
  // Pass 2: re.sub(r"\*\*(.*?)\*\*", r"*\1*", text)
  // ---------------------------------------------------------------------------

  /** No two asterisks stand side by side. */
  predicate NoDoubleStar(s: string) {
    forall k :: 0 <= k < |s| - 1 ==> !(s[k] == '*' && s[k + 1] == '*')
  }

  /**
   * Where the closing `\*\*` of a match is found when `(.*?)` starts at
   * index `i`: the first `**` at or after `i`, provided no newline comes
   * before it; None when a newline or the end of the text comes first.
   */
  function StarsFrom(s: string, i: nat): (r: Option<nat>)
    requires i <= |s|
    decreases |s| - i
    ensures r.Some? ==> i <= r.value && r.value + 1 < |s| && s[r.value] == '*' && s[r.value + 1] == '*'
                        && '\n' !in s[i..r.value]
                        && forall k :: i <= k < r.value ==> !(s[k] == '*' && s[k + 1] == '*')
    ensures r.None? ==> forall k :: i <= k < |s| - 1 && s[k] == '*' && s[k + 1] == '*' ==> '\n' in s[i..k]
  {
    if i + 1 >= |s| then None
    else if s[i] == '*' && s[i + 1] == '*' then Some(i)
    else if s[i] == '\n' then None
    else
      var r := StarsFrom(s, i + 1);
      assert r.Some? ==> s[i..r.value] == [s[i]] + s[i + 1..r.value];
      assert forall k :: i + 1 <= k <= |s| ==> s[i..k] == [s[i]] + s[i + 1..k];
      r
  }

  /**
   * The second substitution: every `**x**` on one line, `x` the shortest
   * possible, becomes `*x*`. Each match loses exactly two asterisks.
   */
  function ToWhatsAppBold(s: string): (r: string)
    ensures |r| <= |s| && (|s| - |r|) % 2 == 0
    decreases |s|
  {
    if |s| >= 2 && s[0] == '*' && s[1] == '*' && StarsFrom(s, 2).Some? then
      var j := StarsFrom(s, 2).value;
      ['*'] + s[2..j] + ['*'] + ToWhatsAppBold(s[j + 2..])
    else if s == [] then []
    else [s[0]] + ToWhatsAppBold(s[1..])
  }

  /** `s` with its asterisks taken out. */
  function Unstarred(s: string): (r: string)
    ensures '*' !in r
  {
    if s == [] then []
    else (if s[0] == '*' then [] else [s[0]]) + Unstarred(s[1..])
  }

  lemma {:induction false} UnstarredConcat(a: string, b: string)
    ensures Unstarred(a + b) == Unstarred(a) + Unstarred(b)
    decreases |a|
  {
    if a != [] {
      var head := if a[0] == '*' then [] else [a[0]];
      assert (a + b)[0] == a[0] && (a + b)[1..] == a[1..] + b;
      UnstarredConcat(a[1..], b);
      assert Unstarred(a + b) == head + (Unstarred(a[1..]) + Unstarred(b));
      assert Unstarred(a) == head + Unstarred(a[1..]);
    } else {
      assert a + b == b;
    }
  }

  /** The second substitution only removes asterisks: every other character survives, in order. */
  lemma {:induction false} BoldKeepsText(s: string)
    ensures Unstarred(ToWhatsAppBold(s)) == Unstarred(s)
    decreases |s|
  {
    if |s| >= 2 && s[0] == '*' && s[1] == '*' && StarsFrom(s, 2).Some? {
      var j := StarsFrom(s, 2).value;
      var tail := s[j + 2..];
      BoldKeepsText(tail);
      assert s == ['*', '*'] + s[2..j] + ['*', '*'] + tail;
      UnstarredConcat(['*', '*'] + s[2..j] + ['*', '*'], tail);
      UnstarredConcat(['*', '*'] + s[2..j], ['*', '*']);
      UnstarredConcat(['*', '*'], s[2..j]);
      UnstarredConcat(['*'] + s[2..j] + ['*'], ToWhatsAppBold(tail));
      UnstarredConcat(['*'] + s[2..j], ['*']);
      UnstarredConcat(['*'], s[2..j]);
    } else if s != [] {
      BoldKeepsText(s[1..]);
      UnstarredConcat([s[0]], s[1..]);
      UnstarredConcat([s[0]], ToWhatsAppBold(s[1..]));
      assert s == [s[0]] + s[1..];
    }
  }

  /** Text without `**` comes through the second substitution unchanged. */
  lemma {:induction false} NoDoubleStarUnchanged(s: string)
    requires NoDoubleStar(s)
    ensures ToWhatsAppBold(s) == s
    decreases |s|
  {
    if s != [] {
      assert NoDoubleStar(s[1..]);
      NoDoubleStarUnchanged(s[1..]);
      assert ToWhatsAppBold(s) == [s[0]] + s[1..];
    }
  }

  /** Text without an asterisk is copied through the second substitution unchanged. */
  lemma {:induction false} BoldPlainPrefixKept(a: string, b: string)
    requires '*' !in a
    ensures ToWhatsAppBold(a + b) == a + ToWhatsAppBold(b)
    decreases |a|
  {
    if a != [] {
      assert (a + b)[0] == a[0] && (a + b)[1..] == a[1..] + b;
      BoldPlainPrefixKept(a[1..], b);
      assert a == [a[0]] + a[1..];
    } else {
      assert a + b == b;
    }
  }

  /** No `**` stands on the first line: every `**` comes after a newline. */
  predicate NoStarsOnFirstLine(s: string) {
    forall k :: 0 <= k < |s| - 1 && s[k] == '*' && s[k + 1] == '*' ==> '\n' in s[..k]
  }

  /** A `*` not followed by another `*` opens no match: it is kept, and scanning goes on after it. */
  lemma LoneStarKept(rest: string)
    requires rest == [] || rest[0] != '*'
    ensures ToWhatsAppBold(['*'] + rest) == ['*'] + ToWhatsAppBold(rest)
  {
    assert (['*'] + rest)[1..] == rest;
  }

  /** A `**` whose closing `**` is found on its line puts that `**` on the first line of the text after it. */
  lemma ClosedStarsOnLine(rest: string)
    ensures StarsFrom(['*', '*'] + rest, 2).Some? ==> !NoStarsOnFirstLine(rest)
  {
    var s := ['*', '*'] + rest;
    if StarsFrom(s, 2).Some? {
      var j := StarsFrom(s, 2).value;
      assert rest[j - 2] == '*' && rest[j - 1] == '*';
      assert rest[..j - 2] == s[2..j];
    }
  }

  /**
   * A `**` with no closing `**` before the next newline (`.` does not match
   * a newline) opens no match: its first `*` is kept, and scanning goes on
   * at the second.
   */
  lemma UnclosedStarsKept(rest: string)
    requires NoStarsOnFirstLine(rest)
    ensures ToWhatsAppBold(['*', '*'] + rest) == ['*'] + ToWhatsAppBold(['*'] + rest)
  {
    ClosedStarsOnLine(rest);
    assert (['*', '*'] + rest)[1..] == ['*'] + rest;
  }

  /**
   * `**x**`, with `x` on one line, free of `**` and not ending in `*` (so
   * that the first closing `**` is the one after `x`), becomes `*x*`, and
   * scanning goes on right after it.
   */
  lemma BoldOneSpan(x: string, rest: string)
    requires '\n' !in x && NoDoubleStar(x) && (x == [] || x[|x| - 1] != '*')
    ensures ToWhatsAppBold(['*', '*'] + x + ['*', '*'] + rest) == ['*'] + x + ['*'] + ToWhatsAppBold(rest)
  {
    var s := ['*', '*'] + x + ['*', '*'] + rest;
    var j := |x| + 2;
    assert s[2..j] == x && s[j] == '*' && s[j + 1] == '*';
    assert forall k :: 2 <= k < j ==> s[k] == x[k - 2];
    assert StarsFrom(s, 2).Some?;
    assert StarsFrom(s, 2).value == j;
    assert s[j + 2..] == rest;
  }

  /**
   * The second substitution keeps the ends of a text: its output is empty
   * only for empty input, and starts (ends) with the input's first (last)
   * character or with an asterisk.
   */
  lemma {:induction false} BoldKeepsEnds(s: string)
    ensures ToWhatsAppBold(s) == [] <==> s == []
    ensures s != [] ==> ToWhatsAppBold(s)[0] in {s[0], '*'}
    ensures s != [] ==> ToWhatsAppBold(s)[|ToWhatsAppBold(s)| - 1] in {s[|s| - 1], '*'}
    decreases |s|
  {
    if |s| >= 2 && s[0] == '*' && s[1] == '*' && StarsFrom(s, 2).Some? {
      var j := StarsFrom(s, 2).value;
      BoldKeepsEnds(s[j + 2..]);
    } else if s != [] {
      BoldKeepsEnds(s[1..]);
    }
  }

  // ---------------------------------------------------------------------------
  // The whole function
  // ---------------------------------------------------------------------------

  /**
   * `process_text_for_whatsapp(text)`: delete the bracketed spans, strip the
   * surrounding whitespace, then turn `**bold**` into `*bold*`. The result is
   * never longer than the input and neither starts nor ends with whitespace.
   */
  function ProcessTextForWhatsApp(text: string): (r: string)
    ensures |r| <= |text|
    ensures r == [] || (!IsSpace(r[0]) && !IsSpace(r[|r| - 1]))
  {
    var stripped := Strip(RemoveBracketSpans(text));
    BoldKeepsEnds(stripped);
    ToWhatsAppBold(stripped)
  }

  /** Text with no `【` and no `**` is only stripped. */
  lemma PlainTextOnlyStripped(text: string)
    requires Open !in text && NoDoubleStar(text)
    ensures ProcessTextForWhatsApp(text) == Strip(text)
  {
    SpanFreeUnchanged(text);
    var r := Strip(text);
    var n := Lead(text);
    forall k | 0 <= k < |r| - 1 ensures !(r[k] == '*' && r[k + 1] == '*') {
      assert r[k] == text[n + k] && r[k + 1] == text[n + k + 1];
    }
    NoDoubleStarUnchanged(r);
  }

  /**
   * One citation span between two texts without `【`: the span is deleted and
   * the texts on both sides of it are kept as they are.
   */
  lemma OneCitationRemoved(before: string, citation: string, after: string)
    requires Open !in before && Open !in after
    requires Close !in citation && '\n' !in citation
    ensures RemoveBracketSpans(before + [Open] + citation + [Close] + after) == before + after
  {
    assert before + [Open] + citation + [Close] + after == before + ([Open] + citation + [Close] + after);
    PlainPrefixKept(before, [Open] + citation + [Close] + after);
    RemoveOneSpan(citation, after);
    PlainPrefixKept(after, []);
    assert after + [] == after;
  }

  /** A text that starts and ends with a non-whitespace character is left alone by `strip()`. */
  lemma StripKeepsTrimmed(s: string)
    requires s != [] && !IsSpace(s[0]) && !IsSpace(s[|s| - 1])
    ensures Strip(s) == s
  {
    assert Lead(s) == 0;
    assert TrimEnd(s) == s;
  }

  /**
   * A sentence with one citation span and one bold word, whose parts hold no
   * other markup and no whitespace at either end: the span is deleted (the
   * text on both sides of it is kept as it is), and `**bold**` becomes
   * `*bold*`.
   */
  lemma OneCitationOneBold(before: string, citation: string, between: string, bold: string, after: string)
    requires before != [] && !IsSpace(before[0]) && after != [] && !IsSpace(after[|after| - 1])
    requires Open !in before && Open !in between && Open !in bold && Open !in after
    requires Close !in citation && '\n' !in citation
    requires '*' !in before && '*' !in between && '*' !in bold && '*' !in after && '\n' !in bold
    ensures ProcessTextForWhatsApp(before + [Open] + citation + [Close] + between + ['*', '*'] + bold + ['*', '*'] + after)
         == before + between + (['*'] + bold + ['*'] + after)
  {
    var markup := ['*', '*'] + bold + ['*', '*'] + after;
    var tail := between + markup;
    var text := before + [Open] + citation + [Close] + between + ['*', '*'] + bold + ['*', '*'] + after;
    assert text == before + [Open] + citation + [Close] + tail;
    OneCitationRemoved(before, citation, tail);
    var removed := before + tail;
    assert removed[0] == before[0] && removed[|removed| - 1] == after[|after| - 1];
    StripKeepsTrimmed(removed);
    assert removed == (before + between) + markup;
    BoldPlainPrefixKept(before + between, markup);
    assert NoDoubleStar(bold) by {
      forall k | 0 <= k < |bold| - 1 ensures bold[k] != '*' {
        assert bold[k] in bold;
      }
    }
    assert bold == [] || bold[|bold| - 1] in bold;
    BoldOneSpan(bold, after);
    BoldPlainPrefixKept(after, []);
    assert after + [] == after;
  }

  /**
   * A sample sentence, "See 【4:0†source】 for **details**.", given by its
   * parts: it becomes "See  for *details*.".
   */
  lemma CitationSentence(before: string, citation: string, between: string, bold: string, after: string)
    requires before == "See " && citation == "4:0\U{2020}source" && between == " for " && bold == "details" && after == "."
    ensures ProcessTextForWhatsApp(before + [Open] + citation + [Close] + between + ['*', '*'] + bold + ['*', '*'] + after)
         == "See  for *details*."
  {
    SampleParts(before, citation, between, bold, after);
    OneCitationOneBold(before, citation, between, bold, after);
  }

  /** The sample sentence's parts meet the conditions of `OneCitationOneBold`. */
  lemma SampleParts(before: string, citation: string, between: string, bold: string, after: string)
    requires before == "See " && citation == "4:0\U{2020}source" && between == " for " && bold == "details" && after == "."
    ensures before != [] && !IsSpace(before[0]) && after != [] && !IsSpace(after[|after| - 1])
    ensures Open !in before && Open !in between && Open !in bold && Open !in after
    ensures Close !in citation && '\n' !in citation
    ensures '*' !in before && '*' !in between && '*' !in bold && '*' !in after && '\n' !in bold
    ensures before + between + (['*'] + bold + ['*'] + after) == "See  for *details*."
  {
  }
}
