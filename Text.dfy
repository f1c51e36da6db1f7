/**
 * The few std::string operations the shader generator is built from:
 * counting a character, `find` of a character or of a token (with
 * `std::string::npos` as `None`), and `replace` of a range by a string.
 */
module Text {

  datatype Option<T> = None | Some(value: T)

  /** How many times `c` occurs in `s`. */
  function Occurrences(s: string, c: char): (n: nat)
    ensures n <= |s|
    ensures n == 0 <==> c !in s
  {
    if s == [] then 0
    else (if s[0] == c then 1 else 0) + Occurrences(s[1..], c)
  }

  lemma {:induction false} OccurrencesAppend(a: string, b: string, c: char)
    ensures Occurrences(a + b, c) == Occurrences(a, c) + Occurrences(b, c)
  {
    if a == [] {
      assert a + b == b;
    } else {
      TailOfAppend(a, b);
      OccurrencesAppend(a[1..], b, c);
    }
  }

  /** `s.find(c)`: the first position holding `c`, or `None` for npos. */
  function Find(s: string, c: char): (r: Option<nat>)
    ensures r.None? <==> c !in s
    ensures r.Some? ==> r.value < |s| && s[r.value] == c && c !in s[..r.value]
  {
    if s == [] then None
    else if s[0] == c then Some(0)
    else match Find(s[1..], c)
      case None => None
      case Some(k) => Some(k + 1)
  }

  /** True when `tok` starts at position `i` of `s`. */
  predicate OccursAt(s: string, tok: string, i: nat)
  {
    i + |tok| <= |s| && s[i..i + |tok|] == tok
  }

  /** `s.find(tok)` for a whole token: the first position where `tok` starts, or `None`. */
  function FindToken(s: string, tok: string): (r: Option<nat>)
    ensures r.Some? ==> OccursAt(s, tok, r.value)
    ensures forall i: nat :: OccursAt(s, tok, i) ==> r.Some? && r.value <= i
    decreases |s|
  {
    if |s| < |tok| then None
    else if s[..|tok|] == tok then Some(0)
    else
      assert forall i: nat :: 1 <= i && OccursAt(s, tok, i) ==> OccursAt(s[1..], tok, i - 1) by {
        forall i: nat | 1 <= i && OccursAt(s, tok, i) ensures OccursAt(s[1..], tok, i - 1) {
          assert s[1..][i - 1..i - 1 + |tok|] == s[i..i + |tok|];
        }
      }
      assert !OccursAt(s, tok, 0);
      match FindToken(s[1..], tok)
      case None => None
      case Some(k) =>
        assert s[1..][k..k + |tok|] == s[k + 1..k + 1 + |tok|];
        Some(k + 1)
  }

  lemma FindTokenAtStart(tok: string, b: string)
    ensures FindToken(tok + b, tok) == Some(0)
  {
    assert (tok + b)[..|tok|] == tok;
  }

  /** A stretch `a` in which `tok` does not start can be skipped by `find`. */
  lemma {:induction false} FindTokenSkip(a: string, b: string, tok: string)
    requires tok != []
    requires forall i: nat :: i < |a| ==> !OccursAt(a + b, tok, i)
    ensures FindToken(a + b, tok) == match FindToken(b, tok)
                                     case None => None
                                     case Some(k) => Some(|a| + k)
  {
    if a == [] {
      assert a + b == b;
    } else {
      forall i: nat | i < |a[1..]| ensures !OccursAt(a[1..] + b, tok, i) {
        OccursAfterFirst(a, b, tok, i);
      }
      FindTokenSkip(a[1..], b, tok);
      TailOfAppend(a, b);
      FindTokenPastFirst(a + b, tok);
    }
  }

  lemma TailOfAppend(a: string, b: string)
    requires a != []
    ensures (a + b)[1..] == a[1..] + b
  {
  }

  /** An occurrence in `a[1..] + b` is one in `a + b`, a place further on. */
  lemma OccursAfterFirst(a: string, b: string, tok: string, i: nat)
    requires a != [] && i < |a| - 1
    ensures OccursAt(a[1..] + b, tok, i) ==> OccursAt(a + b, tok, i + 1)
  {
    if OccursAt(a[1..] + b, tok, i) {
      assert (a[1..] + b)[i..i + |tok|] == (a + b)[i + 1..i + 1 + |tok|];
    }
  }

  /** Where the token does not start at the front, `find` looks past the first character. */
  lemma FindTokenPastFirst(s: string, tok: string)
    requires tok != [] && s != [] && !OccursAt(s, tok, 0)
    ensures FindToken(s, tok) == match FindToken(s[1..], tok)
                                 case None => None
                                 case Some(k) => Some(k + 1)
  {
  }

  /**
   * `s.replace(pos, count, t)`: the characters from `pos` on, at most `count`
   * of them, give way to `t`. Like the standard library, the range is cut at
   * the end of `s`; a `pos` past the end is an error the callers never make.
   */
  function Replace(s: string, pos: nat, count: nat, t: string): string
    requires pos <= |s|
  {
    var end := if pos + count <= |s| then pos + count else |s|;
    s[..pos] + t + s[end..]
  }

  /**
   * What `replace` keeps and what it puts in: the text before `pos` stays, `t`
   * follows it, and then comes what is left of `s` after the `count` replaced
   * characters, nothing when the range reaches past the end.
   */
  lemma ReplaceSplices(s: string, pos: nat, count: nat, t: string)
    requires pos <= |s|
    ensures var r := Replace(s, pos, count, t);
            |r| >= pos + |t| && r[..pos] == s[..pos] && r[pos..pos + |t|] == t
            && (pos + count <= |s| ==> r[pos + |t|..] == s[pos + count..])
            && (pos + count > |s| ==> |r| == pos + |t|)
  {
  }

  /** Replacing one occurrence of `c` by `t` trades that one occurrence for those of `t`. */
  lemma ReplaceOneOccurrences(s: string, pos: nat, t: string, c: char)
    requires pos < |s|
    ensures Occurrences(Replace(s, pos, 1, t), c)
            == Occurrences(s, c) - (if s[pos] == c then 1 else 0) + Occurrences(t, c)
  {
    assert s == s[..pos] + [s[pos]] + s[pos + 1..];
    OccurrencesAppend(s[..pos] + [s[pos]], s[pos + 1..], c);
    OccurrencesAppend(s[..pos], [s[pos]], c);
    OccurrencesAppend(s[..pos] + t, s[pos + 1..], c);
    OccurrencesAppend(s[..pos], t, c);
  }

  /** A stretch without `c` can be skipped by `find`. */
  lemma {:induction false} FindSkip(a: string, b: string, c: char)
    requires c !in a
    ensures Find(a + b, c) == match Find(b, c)
                              case None => None
                              case Some(k) => Some(|a| + k)
  {
    if a == [] {
      assert a + b == b;
    } else {
      TailOfAppend(a, b);
      FindSkip(a[1..], b, c);
    }
  }

  /**
   * `s` with its occurrences of `c`, left to right, replaced by the strings of
   * `picks`, one each: what repeatedly replacing the first `c` does when no
   * replacement brings a new `c`.
   */
  function Fill(s: string, c: char, picks: seq<string>): string
    requires Occurrences(s, c) == |picks|
  {
    if s == [] then ""
    else if s[0] == c then picks[0] + Fill(s[1..], c, picks[1..])
    else [s[0]] + Fill(s[1..], c, picks)
  }

  lemma {:induction false} FillAppend(a: string, b: string, c: char, p: seq<string>, q: seq<string>)
    requires Occurrences(a, c) == |p| && Occurrences(b, c) == |q|
    ensures Occurrences(a + b, c) == |p + q|
    ensures Fill(a + b, c, p + q) == Fill(a, c, p) + Fill(b, c, q)
  {
    OccurrencesAppend(a, b, c);
    if a == [] {
      assert a + b == b && p + q == q;
    } else {
      TailOfAppend(a, b);
      if a[0] == c {
        PicksTail(p, q);
        FillAppend(a[1..], b, c, p[1..], q);
        FillHead(a + b, c, p + q);
        FillHead(a, c, p);
        ShiftPrefix(p[0], Fill(a[1..], c, p[1..]), Fill(b, c, q));
      } else {
        FillAppend(a[1..], b, c, p, q);
        FillHead(a + b, c, p + q);
        FillHead(a, c, p);
        ShiftPrefix([a[0]], Fill(a[1..], c, p), Fill(b, c, q));
      }
    }
  }

  lemma PicksTail(p: seq<string>, q: seq<string>)
    requires p != []
    ensures (p + q)[0] == p[0] && (p + q)[1..] == p[1..] + q
  {
  }

  /** The first step of `Fill`: the first character, or the first pick in its place. */
  lemma FillHead(s: string, c: char, picks: seq<string>)
    requires s != [] && Occurrences(s, c) == |picks|
    ensures s[0] == c ==> picks != [] && Fill(s, c, picks) == picks[0] + Fill(s[1..], c, picks[1..])
    ensures s[0] != c ==> Fill(s, c, picks) == [s[0]] + Fill(s[1..], c, picks)
  {
  }

  /** Text without `c` is left as it is. */
  lemma {:induction false} FillUnchanged(s: string, c: char)
    requires c !in s
    ensures Fill(s, c, []) == s
  {
    if s != [] {
      FillUnchanged(s[1..], c);
    }
  }

  /** A character absent from the picks is absent from the result unless it was in the text. */
  lemma {:induction false} FillAbsent(s: string, c: char, picks: seq<string>, d: char)
    requires Occurrences(s, c) == |picks|
    requires d == c || d !in s
    requires forall t <- picks :: d !in t
    ensures d !in Fill(s, c, picks)
  {
    if s != [] {
      if s[0] == c {
        assert picks[0] in picks;
        FillAbsent(s[1..], c, picks[1..], d);
      } else {
        FillAbsent(s[1..], c, picks, d);
      }
    }
  }

  /** Filling a stretch without `c` and then one `c` appends the stretch and the pick. */
  lemma FillGap(prefix: string, gap: string, c: char, picks: seq<string>, t: string)
    requires Occurrences(prefix, c) == |picks| && c !in gap
    ensures Occurrences(prefix + (gap + [c]), c) == |picks + [t]|
    ensures Fill(prefix + (gap + [c]), c, picks + [t]) == Fill(prefix, c, picks) + gap + t
  {
    OccurrencesAppend(gap, [c], c);
    FillUnchanged(gap, c);
    assert [c][1..] == [] && [t][1..] == [];
    assert Fill([c], c, [t]) == t + Fill([], c, []);
    assert [] + [t] == [t];
    FillAppend(gap, [c], c, [], [t]);
    assert Fill(gap + [c], c, [t]) == gap + t;
    FillAppend(prefix, gap + [c], c, picks, [t]);
  }

  /** Once no `c` is left past the filled part, the filled text is the whole result. */
  lemma FillDone(prefix: string, rest: string, c: char, picks: seq<string>)
    requires c !in rest && Occurrences(prefix, c) == |picks|
    ensures Occurrences(prefix + rest, c) == |picks|
    ensures Fill(prefix + rest, c, picks) == Fill(prefix, c, picks) + rest
  {
    FillUnchanged(rest, c);
    FillAppend(prefix, rest, c, picks, []);
    assert picks + [] == picks;
  }

  /** Where `find` lands in text whose first part holds no `c`. */
  lemma FindPastFilled(filled: string, rest: string, c: char, pos: nat)
    returns (gap: string, after: string)
    requires c !in filled && Find(filled + rest, c) == Some(pos)
    ensures rest == gap + [c] + after && c !in gap && pos == |filled| + |gap|
  {
    FindSkip(filled, rest, c);
    var k := pos - |filled|;
    gap, after := rest[..k], rest[k + 1..];
    assert rest == gap + [c] + after;
  }

  /** Replacing the one character after `a + g` by `t`. */
  lemma ReplaceMiddle(a: string, g: string, ch: char, r: string, t: string)
    ensures Replace(a + (g + [ch] + r), |a| + |g|, 1, t) == a + g + t + r
  {
    var s := a + (g + [ch] + r);
    assert s[..|a| + |g|] == a + g;
    assert s[|a| + |g| + 1..] == r;
  }

  /**
   * One turn of the find-and-replace loop: the text is the filled `prefix`
   * of the original followed by the untouched `rest`; replacing the first
   * `c` by `t` moves the stretch up to that `c` from `rest` to `prefix`.
   */
  lemma FillProgress(prefix: string, rest: string, c: char, picks: seq<string>, pos: nat, t: string)
    returns (prefix': string, rest': string)
    requires Occurrences(prefix, c) == |picks| && c !in Fill(prefix, c, picks)
    requires Find(Fill(prefix, c, picks) + rest, c) == Some(pos)
    ensures prefix + rest == prefix' + rest'
    ensures Occurrences(prefix', c) == |picks + [t]|
    ensures Replace(Fill(prefix, c, picks) + rest, pos, 1, t) == Fill(prefix', c, picks + [t]) + rest'
  {
    var gap;
    gap, rest' := FindPastFilled(Fill(prefix, c, picks), rest, c, pos);
    ReplaceMiddle(Fill(prefix, c, picks), gap, c, rest', t);
    FillGap(prefix, gap, c, picks, t);
    prefix' := prefix + (gap + [c]);
    ShiftPrefix(prefix, gap + [c], rest');
  }

  lemma ShiftPrefix(a: string, b: string, r: string)
    ensures a + (b + r) == (a + b) + r
  {
  }

  /** The filled prefix stays free of `c` as long as no pick brings one. */
  lemma FillKeepsOut(s: string, c: char, picks: seq<string>, t: string)
    requires Occurrences(s, c) == |picks + [t]|
    requires c !in t && forall p <- picks :: c !in p
    ensures c !in Fill(s, c, picks + [t])
  {
    forall p <- picks + [t] ensures c !in p {
      if p != t {
        assert p in picks;
      }
    }
    FillAbsent(s, c, picks + [t], c);
  }

  /**
   * The state of a find-and-replace loop over `orig`: `prefix` has been
   * filled with `picks` (none of which brings a `c`), `rest` is untouched,
   * and the current text is the two side by side.
   */
  predicate Filling(orig: string, prefix: string, rest: string, c: char, picks: seq<string>, text: string)
  {
    && orig == prefix + rest
    && Occurrences(prefix, c) == |picks|
    && text == Fill(prefix, c, picks) + rest
    && c !in Fill(prefix, c, picks)
    && (forall p <- picks :: c !in p)
  }

  lemma FillingStart(s: string, c: char)
    ensures Filling(s, [], s, c, [], s)
  {
    assert [] + s == s;
  }

  /** A turn of the loop keeps its state and leaves one `c` fewer. */
  lemma FillingStep(orig: string, prefix: string, rest: string, c: char, picks: seq<string>,
                    text: string, pos: nat, t: string)
    returns (prefix': string, rest': string)
    requires Filling(orig, prefix, rest, c, picks, text)
    requires Find(text, c) == Some(pos) && c !in t
    ensures pos < |text|
    ensures Filling(orig, prefix', rest', c, picks + [t], Replace(text, pos, 1, t))
    ensures Occurrences(Replace(text, pos, 1, t), c) == Occurrences(text, c) - 1
  {
    prefix', rest' := FillProgress(prefix, rest, c, picks, pos, t);
    FillKeepsOut(prefix', c, picks, t);
    ReplaceOneOccurrences(text, pos, t, c);
  }

  /** When no `c` is left the loop has filled the whole of `orig`. */
  lemma FillingEnd(orig: string, prefix: string, rest: string, c: char, picks: seq<string>, text: string)
    requires Filling(orig, prefix, rest, c, picks, text) && c !in text
    ensures Occurrences(orig, c) == |picks|
    ensures text == Fill(orig, c, picks)
  {
    FillDone(prefix, rest, c, picks);
  }

  /** Replacing a token found right after `a` swaps it for `t` and keeps both sides. */
  lemma ReplaceToken(a: string, tok: string, b: string, t: string)
    ensures Replace(a + tok + b, |a|, |tok|, t) == a + t + b
  {
    var s := a + tok + b;
    assert s[..|a|] == a;
    assert s[|a| + |tok|..] == b;
  }

  /** Filling text framed by two stretches without `c` fills only the middle. */
  lemma FillFramed(p: string, m: string, q: string, c: char, picks: seq<string>)
    requires c !in p && c !in q && Occurrences(m, c) == |picks|
    ensures Occurrences(p + m + q, c) == |picks|
    ensures Fill(p + m + q, c, picks) == p + Fill(m, c, picks) + q
  {
    FillUnchanged(p, c);
    FillUnchanged(q, c);
    FillAppend(p, m, c, [], picks);
    assert [] + picks == picks;
    FillAppend(p + m, q, c, picks, []);
    assert picks + [] == picks;
  }
}
