/**
 * `html_escape`: the text placed in a Telegram HTML message has `&`, `<`
 * and `>` replaced by their entities, by three `str.replace` passes in that
 * order.
 */
module Escape {

  /** One `str.replace(c, rep)` pass: every occurrence of `c` becomes `rep`. */
  function ReplaceChar(s: string, c: char, rep: string): (r: string)
    ensures c !in rep ==> c !in r
    ensures forall d :: d != c && d !in rep && d !in s ==> d !in r
  {
    if s == [] then []
    else (if s[0] == c then rep else [s[0]]) + ReplaceChar(s[1..], c, rep)
  }

  /** `html_escape(text)`: the three passes, `&` first. */
  function HtmlEscape(s: string): string
  {
    ReplaceChar(ReplaceChar(ReplaceChar(s, '&', "&amp;"), '<', "&lt;"), '>', "&gt;")
  }

  /** What a single character becomes in the escaped text. */
  function EscapeChar(c: char): string
  {
    if c == '&' then "&amp;" else if c == '<' then "&lt;" else if c == '>' then "&gt;" else [c]
  }

  /** Escaping character by character, in one pass. */
  function EscapeEach(s: string): string
  {
    if s == [] then [] else EscapeChar(s[0]) + EscapeEach(s[1..])
  }

  /** One of the three entities starts at position `i` of `r`. */
  predicate EntityAt(r: string, i: nat)
  {
    || (i + 5 <= |r| && r[i..i + 5] == "&amp;")
    || (i + 4 <= |r| && r[i..i + 4] == "&lt;")
    || (i + 4 <= |r| && r[i..i + 4] == "&gt;")
  }

  /** The inverse of escaping: each entity back to its character. */
  function Unescape(r: string): string
  {
    if r == [] then []
    else if |r| >= 5 && r[..5] == "&amp;" then "&" + Unescape(r[5..])
    else if |r| >= 4 && r[..4] == "&lt;" then "<" + Unescape(r[4..])
    else if |r| >= 4 && r[..4] == "&gt;" then ">" + Unescape(r[4..])
    else [r[0]] + Unescape(r[1..])
  }

  lemma {:induction false} ReplaceAppend(a: string, b: string, c: char, rep: string)
    ensures ReplaceChar(a + b, c, rep) == ReplaceChar(a, c, rep) + ReplaceChar(b, c, rep)
  {
    if a == [] {
      assert a + b == b;
    } else {
      assert (a + b)[0] == a[0] && (a + b)[1..] == a[1..] + b;
      ReplaceAppend(a[1..], b, c, rep);
    }
  }

  lemma ReplaceAbsent(s: string, c: char, rep: string)
    requires c !in s
    ensures ReplaceChar(s, c, rep) == s
  {
  }

  /** One pass over a single character. */
  lemma ReplaceSingle(d: char, c: char, rep: string)
    ensures ReplaceChar([d], c, rep) == if d == c then rep else [d]
  {
    assert [d][0] == d && [d][1..] == [];
    var head := if d == c then rep else [d];
    assert head + [] == head;
  }

  /** On a single character, the three passes give that character's escape. */
  lemma EscapeOne(c: char)
    ensures ReplaceChar(ReplaceChar(ReplaceChar([c], '&', "&amp;"), '<', "&lt;"), '>', "&gt;") == EscapeChar(c)
  {
    ReplaceSingle(c, '&', "&amp;");
    var p1 := ReplaceChar([c], '&', "&amp;");
    if c == '&' {
      ReplaceAbsent(p1, '<', "&lt;");
      ReplaceAbsent(p1, '>', "&gt;");
    } else if c == '<' {
      ReplaceSingle(c, '<', "&lt;");
      ReplaceAbsent("&lt;", '>', "&gt;");
    } else {
      ReplaceSingle(c, '<', "&lt;");
      ReplaceSingle(c, '>', "&gt;");
    }
  }

  /** The three chained passes escape each character independently: no pass touches what an earlier one wrote. */
  lemma {:induction false} HtmlEscapeIsEscapeEach(s: string)
    ensures HtmlEscape(s) == EscapeEach(s)
  {
    if s != [] {
      HtmlEscapeIsEscapeEach(s[1..]);
      var c := s[0];
      assert s == [c] + s[1..];
      var p1 := ReplaceChar([c], '&', "&amp;");
      ReplaceAppend([c], s[1..], '&', "&amp;");
      var q1 := ReplaceChar(s[1..], '&', "&amp;");
      ReplaceAppend(p1, q1, '<', "&lt;");
      var p2 := ReplaceChar(p1, '<', "&lt;");
      var q2 := ReplaceChar(q1, '<', "&lt;");
      ReplaceAppend(p2, q2, '>', "&gt;");
      EscapeOne(c);
    }
  }

  /** An entity stays an entity when text is put in front of it. */
  lemma EntityShift(h: string, t: string, j: nat)
    requires EntityAt(t, j)
    ensures EntityAt(h + t, |h| + j)
  {
    if j + 5 <= |t| && t[j..j + 5] == "&amp;" {
      assert (h + t)[|h| + j..|h| + j + 5] == t[j..j + 5];
    } else {
      assert (h + t)[|h| + j..|h| + j + 4] == t[j..j + 4];
    }
  }

  /** The escape of a character that starts with `&` is an entity, whatever follows it. */
  lemma EntityHead(c: char, t: string)
    requires EscapeChar(c)[0] == '&'
    ensures EntityAt(EscapeChar(c) + t, 0)
  {
    var h := EscapeChar(c);
    assert (h + t)[0..|h|] == h;
  }

  /** Escaped text holds no `<` and no `>`. */
  lemma {:induction false} EscapeEachNoBrackets(s: string)
    ensures '<' !in EscapeEach(s) && '>' !in EscapeEach(s)
  {
    if s != [] {
      EscapeEachNoBrackets(s[1..]);
    }
  }

  /** In escaped text, every `&` begins an entity. */
  lemma {:induction false} EscapeEachEntities(s: string)
    ensures forall i :: 0 <= i < |EscapeEach(s)| && EscapeEach(s)[i] == '&' ==> EntityAt(EscapeEach(s), i)
  {
    if s != [] {
      EscapeEachEntities(s[1..]);
      var h := EscapeChar(s[0]);
      var t := EscapeEach(s[1..]);
      var r := h + t;
      assert r == EscapeEach(s);
      forall i | 0 <= i < |r| && r[i] == '&' ensures EntityAt(r, i) {
        if i < |h| {
          assert i == 0;
          EntityHead(s[0], t);
        } else {
          assert r[i] == t[i - |h|];
          EntityShift(h, t, i - |h|);
        }
      }
    }
  }

  /** `html_escape` output is safe to embed in the HTML message. */
  lemma HtmlEscapeSafe(s: string)
    ensures '<' !in HtmlEscape(s) && '>' !in HtmlEscape(s)
    ensures forall i :: 0 <= i < |HtmlEscape(s)| && HtmlEscape(s)[i] == '&' ==> EntityAt(HtmlEscape(s), i)
  {
    HtmlEscapeIsEscapeEach(s);
    EscapeEachNoBrackets(s);
    EscapeEachEntities(s);
  }

  /** Unescaping undoes `html_escape`: no information is lost. */
  lemma {:induction false} HtmlEscapeRoundTrip(s: string)
    ensures Unescape(HtmlEscape(s)) == s
  {
    HtmlEscapeIsEscapeEach(s);
    UnescapeEscapeEach(s);
  }

  lemma {:induction false} UnescapeEscapeEach(s: string)
    ensures Unescape(EscapeEach(s)) == s
  {
    if s != [] {
      UnescapeEscapeEach(s[1..]);
      var c := s[0];
      var t := EscapeEach(s[1..]);
      var r := EscapeChar(c) + t;
      if c == '&' {
        assert r[..5] == "&amp;" && r[5..] == t;
      } else if c == '<' {
        assert r[..4] == "&lt;" && r[4..] == t;
        assert !(|r| >= 5 && r[..5] == "&amp;") by { assert r[1] == 'l'; }
      } else if c == '>' {
        assert r[..4] == "&gt;" && r[4..] == t;
        assert !(|r| >= 5 && r[..5] == "&amp;") by { assert r[1] == 'g'; }
        assert !(|r| >= 4 && r[..4] == "&lt;") by { assert r[1] == 'g'; }
      } else {
        assert r[0] == c && r[1..] == t;
      }
      assert s == [c] + s[1..];
    }
  }
}
