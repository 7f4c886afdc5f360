/** String helpers with the behaviour of the JavaScript built-ins the intake
    dialogue and the list-query builder rely on: `String.prototype.trim`,
    `split(' ')`, `join(' ')`, `includes` and the decimal rendering of an
    integer inside a template literal. */
module Text {

  /** The code points `trim` removes: the ECMAScript WhiteSpace set
      (tab, vertical tab, form feed, space, no-break space, byte order mark and
      the Unicode space separators) and the LineTerminator set. */
  predicate IsJsWhitespace(c: char) {
    || c == '\t' || c == '\n' || c == '\U{000B}' || c == '\U{000C}' || c == '\r'
    || c == ' ' || c == '\U{00A0}' || c == '\U{1680}'
    || ('\U{2000}' <= c <= '\U{200A}')
    || c == '\U{2028}' || c == '\U{2029}' || c == '\U{202F}' || c == '\U{205F}'
    || c == '\U{3000}' || c == '\U{FEFF}'
  }

  predicate AllWhitespace(s: string) {
    forall i :: 0 <= i < |s| ==> IsJsWhitespace(s[i])
  }

  /** Drops leading whitespace: the result is the suffix of `s` that starts at
      its first non-whitespace character. */
  function TrimStart(s: string): (r: string)
    ensures |r| <= |s| && r == s[|s| - |r|..]
    ensures AllWhitespace(s[..|s| - |r|])
    ensures r != [] ==> !IsJsWhitespace(r[0])
  {
    if |s| > 0 && IsJsWhitespace(s[0]) then
      var t := s[1..];
      var r := TrimStart(t);
      assert r == s[|s| - |r|..] by { assert t[|t| - |r|..] == s[|s| - |r|..]; }
      assert AllWhitespace(s[..|s| - |r|]) by {
        assert s[..|s| - |r|] == [s[0]] + t[..|t| - |r|];
      }
      r
    else
      s
  }

  /** Drops trailing whitespace: the result is the prefix of `s` that ends at
      its last non-whitespace character. */
  function TrimEnd(s: string): (r: string)
    ensures |r| <= |s| && r == s[..|r|]
    ensures AllWhitespace(s[|r|..])
    ensures r != [] ==> !IsJsWhitespace(r[|r| - 1])
  {
    if |s| > 0 && IsJsWhitespace(s[|s| - 1]) then
      var t := s[..|s| - 1];
      var r := TrimEnd(t);
      assert r == s[..|r|] by { assert t[..|r|] == s[..|r|]; }
      assert AllWhitespace(s[|r|..]) by {
        assert s[|r|..] == t[|r|..] + [s[|s| - 1]];
      }
      r
    else
      s
  }

  /** `s.trim()`: the longest slice of `s` that neither starts nor ends with
      whitespace; everything cut off on either side is whitespace. */
  function Trim(s: string): (r: string)
    ensures exists i :: TrimmedSlice(s, r, i)
    ensures r != [] ==> !IsJsWhitespace(r[0]) && !IsJsWhitespace(r[|r| - 1])
  {
    var t := TrimStart(s);
    var r := TrimEnd(t);
    var i := |s| - |t|;
    assert t == s[i..];
    assert s[i..i + |r|] == r by { assert s[i..][..|r|] == s[i..i + |r|]; }
    assert s[i + |r|..] == t[|r|..] by { assert s[i..][|r|..] == s[i + |r|..]; }
    assert TrimmedSlice(s, r, i);
    r
  }

  /** `r` is the slice of `s` starting at `i`, and all of `s` around it is
      whitespace. */
  predicate TrimmedSlice(s: string, r: string, i: int) {
    && 0 <= i && i + |r| <= |s| && s[i..i + |r|] == r
    && AllWhitespace(s[..i]) && AllWhitespace(s[i + |r|..])
  }

  /** Trimming yields the empty string exactly when the input is all
      whitespace (the `!trimmedText` guard). */
  lemma TrimEmptyIff(s: string)
    ensures Trim(s) == [] <==> AllWhitespace(s)
  {
    var r := Trim(s);
    var i :| TrimmedSlice(s, r, i);
    if r == [] {
      forall k | 0 <= k < |s| ensures IsJsWhitespace(s[k]) {
        if k < i { assert s[..i][k] == s[k]; } else { assert s[i..][k - i] == s[k]; }
      }
    } else {
      assert s[i] == r[0];
    }
  }

  /** Trimming twice is trimming once. */
  lemma TrimIdempotent(s: string)
    ensures Trim(Trim(s)) == Trim(s)
  {
    var r := Trim(s);
    if r != [] {
      assert TrimStart(r) == r;
      assert TrimEnd(r) == r;
    }
  }

  // ---------------------------------------------------------------------
  // split(' ') and join(' ')

  /** `s.split(' ')`: the maximal space-free pieces between single spaces.
      There is always at least one piece ("" splits into [""]). */
  function Split(s: string): (r: seq<string>)
    ensures |r| >= 1
    ensures forall i :: 0 <= i < |r| ==> ' ' !in r[i]
  {
    if s == [] then [[]] else PrependChar(s[0], Split(s[1..]))
  }

  /** The pieces of `[c] + t` given the pieces of `t`: a space opens a new
      empty piece, any other character extends the first piece. */
  function PrependChar(c: char, ws: seq<string>): (r: seq<string>)
    requires |ws| >= 1
    ensures |r| >= 1
    ensures (forall i :: 0 <= i < |ws| ==> ' ' !in ws[i]) ==> forall i :: 0 <= i < |r| ==> ' ' !in r[i]
  {
    if c == ' ' then [[]] + ws else [[c] + ws[0]] + ws[1..]
  }

  lemma PrependAppend(c: char, ws: seq<string>, vs: seq<string>)
    requires |ws| >= 1
    ensures PrependChar(c, ws + vs) == PrependChar(c, ws) + vs
  {
    if c != ' ' {
      assert (ws + vs)[0] == ws[0];
      assert (ws + vs)[1..] == ws[1..] + vs;
    }
  }

  /** `ws.join(' ')`. */
  function Join(ws: seq<string>): string {
    if |ws| == 0 then []
    else if |ws| == 1 then ws[0]
    else ws[0] + " " + Join(ws[1..])
  }

  /** Number of space characters in `s`. */
  function CountSpaces(s: string): nat {
    if s == [] then 0 else (if s[0] == ' ' then 1 else 0) + CountSpaces(s[1..])
  }

  /** Splitting produces one piece more than there are spaces. */
  lemma {:induction false} SplitLength(s: string)
    ensures |Split(s)| == CountSpaces(s) + 1
  {
    if s != [] { SplitLength(s[1..]); }
  }

  /** Joining the pieces of a split gives back the original string. */
  lemma {:induction false} JoinSplit(s: string)
    ensures Join(Split(s)) == s
  {
    if s != [] {
      var rest := Split(s[1..]);
      JoinSplit(s[1..]);
      if s[0] == ' ' {
        assert Split(s) == [[]] + rest;
        assert ([[]] + rest)[1..] == rest;
      } else {
        var ws := [[s[0]] + rest[0]] + rest[1..];
        assert Split(s) == ws;
        if |rest| == 1 {
          assert Join(rest) == rest[0];
        } else {
          assert ws[1..] == rest[1..];
          assert Join(rest) == rest[0] + " " + Join(rest[1..]);
        }
      }
    }
  }

  /** A space splits a string into the pieces on its left followed by the
      pieces on its right. */
  lemma {:induction false} SplitAroundSpace(x: string, y: string)
    ensures Split(x + " " + y) == Split(x) + Split(y)
  {
    var z := x + " " + y;
    if x == [] {
      assert z == [' '] + y;
      assert z[1..] == y;
    } else {
      assert z[0] == x[0];
      assert z[1..] == x[1..] + " " + y;
      SplitAroundSpace(x[1..], y);
      PrependAppend(x[0], Split(x[1..]), Split(y));
    }
  }

  /** A space-free string is a single piece. */
  lemma {:induction false} SplitSpaceFree(w: string)
    requires ' ' !in w
    ensures Split(w) == [w]
  {
    if w != [] {
      assert w[0] in w;
      assert forall c :: c in w[1..] ==> c in w;
      SplitSpaceFree(w[1..]);
      assert [w[0]] + w[1..] == w;
    }
  }

  /** Splitting a join of space-free pieces gives back the pieces. */
  lemma {:induction false} SplitJoin(ws: seq<string>)
    requires |ws| >= 1
    requires forall i :: 0 <= i < |ws| ==> ' ' !in ws[i]
    ensures Split(Join(ws)) == ws
  {
    SplitSpaceFree(ws[0]);
    if |ws| > 1 {
      SplitJoin(ws[1..]);
      SplitAroundSpace(ws[0], Join(ws[1..]));
      assert [ws[0]] + ws[1..] == ws;
    }
  }

  /** Joining the first `n` pieces of a list (when more follow) leaves the
      rest of the join behind a single separating space. */
  lemma {:induction false} JoinPrefix(ws: seq<string>, n: nat)
    requires 1 <= n < |ws|
    ensures Join(ws) == Join(ws[..n]) + " " + Join(ws[n..])
  {
    if n > 1 {
      JoinPrefix(ws[1..], n - 1);
      assert ws[1..][..n - 1] == ws[..n][1..];
      assert ws[1..][n - 1..] == ws[n..];
    }
  }

  // ---------------------------------------------------------------------
  // includes

  /** `s.includes(w)`: `w` occurs in `s` as a contiguous slice. */
  predicate Contains(s: string, w: string) {
    exists i :: 0 <= i <= |s| - |w| && OccursAt(s, w, i)
  }

  /** `w` occurs in `s` starting at index `i`. */
  predicate OccursAt(s: string, w: string, i: nat) {
    i + |w| <= |s| && s[i..i + |w|] == w
  }

  // ---------------------------------------------------------------------
  // decimal rendering of a natural number

  function DigitChar(d: nat): (c: char)
    requires d < 10
    ensures '0' <= c <= '9' && (c as int) - ('0' as int) == d
  {
    "0123456789"[d]
  }

  predicate AllDigits(s: string) {
    forall i :: 0 <= i < |s| ==> '0' <= s[i] <= '9'
  }

  /** The decimal digits of `n`, as `${n}` renders a non-negative integer;
      no leading zero except for 0 itself. */
  function NatToString(n: nat): (r: string)
    ensures |r| >= 1 && AllDigits(r)
    ensures r[0] == '0' ==> n == 0
  {
    if n < 10 then [DigitChar(n)] else NatToString(n / 10) + [DigitChar(n % 10)]
  }

  /** The value of a string of decimal digits. */
  function ParseNat(s: string): nat
    requires AllDigits(s)
  {
    if s == [] then 0
    else ParseNat(s[..|s| - 1]) * 10 + ((s[|s| - 1] as int) - ('0' as int))
  }

  /** Reading back the rendered digits gives the number: the rendering is
      injective, so distinct placeholder numbers render differently. */
  lemma {:induction false} ParseNatToString(n: nat)
    ensures ParseNat(NatToString(n)) == n
  {
    if n >= 10 {
      var r := NatToString(n);
      ParseNatToString(n / 10);
      assert r[..|r| - 1] == NatToString(n / 10);
    }
  }
}
