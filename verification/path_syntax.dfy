/** The path tokenizer of ValueHandler::getValueByPath: `preg_split('/\.|(\[\d+\])/', ...)`
    with a `[digits]` group captured as a piece of its own, a `.` dropped and empty pieces
    dropped; and Render, which writes steps back as a path. Tokenizing gives well-formed
    steps back from their rendering. */
module PathSyntax {

  /** One step of a path: a field name, or a bracketed item index `[n]`. */
  datatype Step = Name(name: string) | Index(n: nat)

  predicate IsDigit(c: char)
  {
    '0' <= c <= '9'
  }

  predicate AllDigits(s: string)
  {
    forall i :: 0 <= i < |s| ==> IsDigit(s[i])
  }

  /** Length of the run of decimal digits that starts `s`. */
  function DigitRun(s: string): (k: nat)
    ensures k <= |s|
    ensures forall i :: 0 <= i < k ==> IsDigit(s[i])
    ensures k < |s| ==> !IsDigit(s[k])
  {
    if s != [] && IsDigit(s[0]) then 1 + DigitRun(s[1..]) else 0
  }

  /** The digit run is the only length with the three properties above. */
  lemma {:induction false} DigitRunUnique(s: string, k: nat)
    requires k <= |s|
    requires forall i :: 0 <= i < k ==> IsDigit(s[i])
    requires k < |s| ==> !IsDigit(s[k])
    ensures DigitRun(s) == k
  {
    if k > 0 {
      DigitRunUnique(s[1..], k - 1);
    }
  }

  /** Appending text that does not start with a digit leaves the digit run unchanged. */
  lemma DigitRunAppend(x: string, r: string)
    requires DigitRun(x) < |x| || r == [] || !IsDigit(r[0])
    ensures DigitRun(x + r) == DigitRun(x)
  {
    DigitRunUnique(x + r, DigitRun(x));
  }

  /** Length of the `[digits]` group that starts `s` (a captured delimiter), or 0. */
  function GroupLength(s: string): (g: nat)
    ensures g > 0 ==> 3 <= g <= |s| && s[0] == '[' && s[g - 1] == ']' && AllDigits(s[1..g - 1])
    ensures s != [] && s[0] != '[' ==> g == 0
    ensures forall k :: 2 <= k < |s| && s[0] == '[' && s[k] == ']' && AllDigits(s[1..k]) ==> g == k + 1
  {
    if s != [] && s[0] == '[' then
      GroupClosing(s);
      var k := DigitRun(s[1..]);
      if 0 < k && k + 1 < |s| && s[k + 1] == ']' then k + 2 else 0
    else 0
  }

  /** A `]` after a run of digits that follows `[` closes the run. */
  lemma GroupClosing(s: string)
    ensures forall k :: 2 <= k < |s| && s[0] == '[' && s[k] == ']' && AllDigits(s[1..k]) ==>
      DigitRun(s[1..]) == k - 1
  {
    forall k | 2 <= k < |s| && s[0] == '[' && s[k] == ']' && AllDigits(s[1..k])
      ensures DigitRun(s[1..]) == k - 1
    {
      assert forall i :: 0 <= i < k - 1 ==> s[1..][i] == s[1..k][i];
      DigitRunUnique(s[1..], k - 1);
    }
  }

  /** Value of a string of decimal digits. */
  function DigitsValue(d: string): nat
    requires AllDigits(d)
  {
    if d == [] then 0 else 10 * DigitsValue(d[..|d| - 1]) + (d[|d| - 1] as int - '0' as int)
  }

  /** A non-empty piece becomes a name step; empty pieces are dropped. */
  function Flush(piece: string): seq<Step>
  {
    if piece == [] then [] else [Name(piece)]
  }

  /** Scans `s`, with `piece` the text collected since the last delimiter. At each position
      a `.` ends the piece, a `[digits]` group ends it and becomes an index step, and any
      other character joins the piece. Empty pieces give no step. */
  function Scan(s: string, piece: string): (r: seq<Step>)
    ensures forall i :: 0 <= i < |r| && r[i].Name? ==> r[i].name != []
    decreases |s|
  {
    if s == [] then Flush(piece)
    else if s[0] == '.' then Flush(piece) + Scan(s[1..], [])
    else if GroupLength(s) > 0 then
      var g := GroupLength(s);
      Flush(piece) + [Index(DigitsValue(s[1..g - 1]))] + Scan(s[g..], [])
    else Scan(s[1..], piece + [s[0]])
  }

  /** The steps of a path, e.g. "images[0].uri" gives images, [0], uri; the empty pieces
      that `preg_split` drops give no step. */
  function Tokenize(path: string): (steps: seq<Step>)
    ensures forall i :: 0 <= i < |steps| && steps[i].Name? ==> steps[i].name != []
  {
    Scan(path, [])
  }

  // ----- The inverse: writing steps back as a path -----

  function DigitChar(d: nat): char
    requires d < 10
  {
    ('0' as int + d) as char
  }

  /** Decimal notation of `n`, without leading zeros. */
  function NatDigits(n: nat): (d: string)
    ensures d != [] && AllDigits(d)
    decreases n
  {
    if n < 10 then [DigitChar(n)] else NatDigits(n / 10) + [DigitChar(n % 10)]
  }

  lemma {:induction false} DigitsRoundTrip(n: nat)
    ensures DigitsValue(NatDigits(n)) == n
  {
    var d := NatDigits(n);
    if n >= 10 {
      DigitsRoundTrip(n / 10);
      assert d[..|d| - 1] == NatDigits(n / 10);
    }
  }

  function StepText(step: Step, first: bool): string
  {
    match step
    case Name(n) => if first then n else "." + n
    case Index(k) => "[" + NatDigits(k) + "]"
  }

  function RenderFrom(steps: seq<Step>, first: bool): string
    decreases |steps|
  {
    if steps == [] then [] else StepText(steps[0], first) + RenderFrom(steps[1..], false)
  }

  /** Writes steps as a path: names joined by `.`, indexes as `[n]`. */
  function Render(steps: seq<Step>): string
  {
    RenderFrom(steps, true)
  }

  /** A name the tokenizer can give back: not empty, no `.`, no `[digits]` group inside. */
  predicate GoodName(n: string)
  {
    n != [] && forall j :: 0 <= j < |n| ==> n[j] != '.' && GroupLength(n[j..]) == 0
  }

  predicate WellFormed(steps: seq<Step>)
  {
    forall i :: 0 <= i < |steps| ==> steps[i].Name? ==> GoodName(steps[i].name)
  }

  // ----- Lemmas about groups -----

  /** A group at the start of `x` stays the same group whatever follows. */
  lemma GroupExtends(x: string, r: string)
    requires GroupLength(x) > 0
    ensures GroupLength(x + r) == GroupLength(x)
  {
    var k := DigitRun(x[1..]);
    DigitRunAppend(x[1..], r);
    assert (x + r)[1..] == x[1..] + r;
  }

  /** No group starts `x`, and what follows cannot complete one. */
  lemma GroupBlocked(x: string, r: string)
    requires x != [] && GroupLength(x) == 0
    requires r == [] || r[0] == '.' || r[0] == '['
    ensures GroupLength(x + r) == 0
  {
    if x[0] == '[' {
      assert (x + r)[1..] == x[1..] + r;
      DigitRunAppend(x[1..], r);
    }
  }

  // ----- Every step the tokenizer gives is well formed -----

  lemma WellFormedConcat(a: seq<Step>, b: seq<Step>)
    ensures WellFormed(a) && WellFormed(b) ==> WellFormed(a + b)
  {
    if WellFormed(a) && WellFormed(b) {
      forall i | 0 <= i < |a + b| && (a + b)[i].Name?
        ensures GoodName((a + b)[i].name)
      {
        if i >= |a| {
          assert (a + b)[i] == b[i - |a|];
        }
      }
    }
  }

  /** The piece collected so far, followed by the rest of the text, holds no delimiter. */
  predicate PieceClean(piece: string, s: string)
  {
    forall j :: 0 <= j < |piece| ==> piece[j] != '.' && GroupLength(piece[j..] + s) == 0
  }

  /** At a delimiter or the end of the text, a clean piece is flushed as a good name. */
  lemma FlushGood(piece: string, s: string)
    requires s == [] || s[0] == '.' || GroupLength(s) > 0
    ensures PieceClean(piece, s) ==> WellFormed(Flush(piece))
  {
    if piece != [] && PieceClean(piece, s) {
      forall j | 0 <= j < |piece|
        ensures GroupLength(piece[j..]) == 0
      {
        if GroupLength(piece[j..]) > 0 {
          GroupExtends(piece[j..], s);
        }
      }
    }
  }

  /** A character that starts no delimiter joins a clean piece, which stays clean. */
  lemma PieceGrows(piece: string, s: string)
    requires s != [] && s[0] != '.' && GroupLength(s) == 0
    ensures PieceClean(piece, s) ==> PieceClean(piece + [s[0]], s[1..])
  {
    if PieceClean(piece, s) {
      var p := piece + [s[0]];
      forall j | 0 <= j < |p|
        ensures p[j] != '.' && GroupLength(p[j..] + s[1..]) == 0
      {
        if j < |piece| {
          assert p[j..] + s[1..] == piece[j..] + s;
        } else {
          assert p[j..] + s[1..] == s;
        }
      }
    }
  }

  lemma {:induction false} ScanWellFormed(s: string, piece: string)
    requires PieceClean(piece, s)
    ensures WellFormed(Scan(s, piece))
    decreases |s|
  {
    if s == [] {
      FlushGood(piece, s);
    } else if s[0] == '.' {
      FlushGood(piece, s);
      ScanWellFormed(s[1..], []);
      WellFormedConcat(Flush(piece), Scan(s[1..], []));
    } else if GroupLength(s) > 0 {
      var g := GroupLength(s);
      FlushGood(piece, s);
      ScanWellFormed(s[g..], []);
      WellFormedConcat(Flush(piece), [Index(DigitsValue(s[1..g - 1]))]);
      WellFormedConcat(Flush(piece) + [Index(DigitsValue(s[1..g - 1]))], Scan(s[g..], []));
    } else {
      PieceGrows(piece, s);
      ScanWellFormed(s[1..], piece + [s[0]]);
    }
  }

  /** Every name step is non-empty and holds no `.` and no `[digits]` group. */
  lemma TokenizeWellFormed(path: string)
    ensures WellFormed(Tokenize(path))
  {
    ScanWellFormed(path, []);
  }

  // ----- Empty pieces: a `.` only separates -----

  /** A `.` splits a path into two that are tokenized independently, so the empty
      pieces around repeated, leading or trailing dots give no step. */
  lemma {:induction false} ScanDotSplit(p: string, q: string, piece: string)
    ensures Scan(p + "." + q, piece) == Scan(p, piece) + Scan(q, [])
    decreases |p|
  {
    var s := p + "." + q;
    if p == [] {
      assert s == "." + q && s[1..] == q;
    } else if p[0] == '.' {
      assert s[1..] == p[1..] + "." + q;
      ScanDotSplit(p[1..], q, []);
    } else if GroupLength(p) > 0 {
      var g := GroupLength(p);
      assert s == p + ("." + q);
      GroupExtends(p, "." + q);
      assert s[1..g - 1] == p[1..g - 1];
      assert s[g..] == p[g..] + "." + q;
      ScanDotSplit(p[g..], q, []);
    } else {
      assert s == p + ("." + q);
      GroupBlocked(p, "." + q);
      assert s[1..] == p[1..] + "." + q;
      ScanDotSplit(p[1..], q, piece + [p[0]]);
    }
  }

  /** The empty path has no steps, and `p.q` has the steps of `p` followed by those of `q`. */
  lemma TokenizeDot(p: string, q: string)
    ensures Tokenize("") == []
    ensures Tokenize(p + "." + q) == Tokenize(p) + Tokenize(q)
  {
    ScanDotSplit(p, q, []);
  }

  lemma ConcatAssoc(a: seq<Step>, b: seq<Step>, c: seq<Step>, d: seq<Step>)
    ensures a + (b + c + d) == a + b + c + d
  {
  }

  /** Scanning `p + rest` where `p` starts with a `.`. */
  lemma UnfoldDot(p: string, rest: string, piece: string)
    requires p != [] && p[0] == '.'
    ensures Scan(p, piece) == Flush(piece) + Scan(p[1..], [])
    ensures Scan(p + rest, piece) == Flush(piece) + Scan(p[1..] + rest, [])
  {
    assert (p + rest)[1..] == p[1..] + rest;
  }

  /** Scanning `p + rest` where `p` starts with a whole `[digits]` group. */
  lemma UnfoldGroup(p: string, rest: string, piece: string)
    requires GroupLength(p) > 0
    ensures var g := GroupLength(p);
      var head := Flush(piece) + [Index(DigitsValue(p[1..g - 1]))];
      Scan(p, piece) == head + Scan(p[g..], []) &&
      Scan(p + rest, piece) == head + Scan(p[g..] + rest, [])
  {
    var g := GroupLength(p);
    GroupExtends(p, rest);
    assert (p + rest)[1..g - 1] == p[1..g - 1];
    assert (p + rest)[g..] == p[g..] + rest;
  }

  /** Scanning `p + rest` where `p` starts with a character of a piece, and `rest` starts
      with a delimiter or is empty. */
  lemma UnfoldPiece(p: string, rest: string, piece: string)
    requires p != [] && p[0] != '.' && GroupLength(p) == 0
    requires rest == [] || rest[0] == '.' || rest[0] == '['
    ensures Scan(p, piece) == Scan(p[1..], piece + [p[0]])
    ensures Scan(p + rest, piece) == Scan(p[1..] + rest, piece + [p[0]])
  {
    GroupBlocked(p, rest);
    assert (p + rest)[0] == p[0];
    assert (p + rest)[1..] == p[1..] + rest;
  }

  /** A `[digits]` group splits a path into two that are tokenized independently, with
      the group's index step between them, whatever stands on either side. */
  lemma {:induction false} ScanGroupSplit(p: string, d: string, q: string, piece: string)
    requires d != [] && AllDigits(d)
    ensures Scan(p + ("[" + d + "]" + q), piece) == Scan(p, piece) + [Index(DigitsValue(d))] + Scan(q, [])
    decreases |p|
  {
    var rest := "[" + d + "]" + q;
    var i := [Index(DigitsValue(d))];
    if p == [] {
      DigitsGroup(d, q);
      assert p + rest == rest;
      var g := GroupLength(rest);
      assert rest[0] == '[' && g > 0;
      assert Scan(rest, piece) == Flush(piece) + [Index(DigitsValue(rest[1..g - 1]))] + Scan(rest[g..], []);
    } else if p[0] == '.' {
      UnfoldDot(p, rest, piece);
      ScanGroupSplit(p[1..], d, q, []);
      ConcatAssoc(Flush(piece), Scan(p[1..], []), i, Scan(q, []));
    } else if GroupLength(p) > 0 {
      var g := GroupLength(p);
      UnfoldGroup(p, rest, piece);
      ScanGroupSplit(p[g..], d, q, []);
      ConcatAssoc(Flush(piece) + [Index(DigitsValue(p[1..g - 1]))], Scan(p[g..], []), i, Scan(q, []));
    } else {
      UnfoldPiece(p, rest, piece);
      ScanGroupSplit(p[1..], d, q, piece + [p[0]]);
    }
  }

  /** `p[n]q` has the steps of `p`, the index n, then the steps of `q`. */
  lemma TokenizeGroup(p: string, n: nat, q: string)
    ensures Tokenize(p + ("[" + NatDigits(n) + "]") + q) == Tokenize(p) + [Index(n)] + Tokenize(q)
  {
    ScanGroupSplit(p, NatDigits(n), q, []);
    DigitsRoundTrip(n);
    assert p + ("[" + NatDigits(n) + "]") + q == p + ("[" + NatDigits(n) + "]" + q);
  }

  /** A one-character path that is not a delimiter is one name. */
  lemma OneCharName(c: char)
    requires c != '.' && c != '['
    ensures Tokenize([c]) == [Name([c])]
  {
    var s := [c];
    assert GroupLength(s) == 0;
    assert s[1..] == [] && [] + [s[0]] == [c];
    assert Scan(s, []) == Scan([], [c]);
  }

  /** Repeated, leading and trailing dots are dropped. */
  lemma TokenizeEmptyPieces()
    ensures Tokenize("a..b") == [Name("a"), Name("b")]
    ensures Tokenize(".a") == [Name("a")]
    ensures Tokenize("a.") == [Name("a")]
  {
    OneCharName('a');
    OneCharName('b');
    TokenizeDot("", "b");
    assert "" + "." + "b" == ".b";
    assert Tokenize(".b") == [Name("b")];
    TokenizeDot("a", ".b");
    assert "a" + "." + ".b" == "a..b";
    TokenizeDot("", "a");
    assert "" + "." + "a" == ".a";
    TokenizeDot("a", "");
    assert "a" + "." + "" == "a.";
  }

  // ----- Round trip: tokenizing a rendered path gives its steps back -----

  /** A name's characters join the current piece one by one. */
  lemma {:induction false} ScanThroughName(w: string, r: string, piece: string)
    requires PieceClean(w, r)
    ensures Scan(w + r, piece) == Scan(r, piece + w)
    decreases |w|
  {
    if w == [] {
      assert w + r == r && piece + w == piece;
    } else {
      assert w[0..] == w;
      assert (w + r)[1..] == w[1..] + r;
      forall j | 0 <= j < |w[1..]|
        ensures w[1..][j] != '.' && GroupLength(w[1..][j..] + r) == 0
      {
        assert w[1..][j..] == w[j + 1..];
      }
      ScanThroughName(w[1..], r, piece + [w[0]]);
      assert piece + [w[0]] + w[1..] == piece + w;
    }
  }

  /** At a delimiter (or the end) the current piece is flushed first. */
  lemma ScanAtBoundary(r: string, piece: string)
    requires r == [] || r[0] == '.' || GroupLength(r) > 0
    ensures Scan(r, piece) == Flush(piece) + Scan(r, [])
  {
  }

  /** Text rendered after the first step starts with a delimiter, or is empty. */
  lemma RenderTailStart(steps: seq<Step>)
    ensures var r := RenderFrom(steps, false);
      r == [] || r[0] == '.' || (r[0] == '[' && GroupLength(r) > 0)
  {
    if steps != [] && steps[0].Index? {
      IndexGroup(steps[0].n, RenderFrom(steps[1..], false));
    }
  }

  /** The text `[d]`, for a non-empty digit string d, followed by anything is one group. */
  lemma DigitsGroup(d: string, rest: string)
    requires d != [] && AllDigits(d)
    ensures var s := "[" + d + "]" + rest;
      GroupLength(s) == |d| + 2 && s[1..|d| + 1] == d && s[|d| + 2..] == rest
  {
    var s := "[" + d + "]" + rest;
    assert s[1..] == d + ("]" + rest);
    DigitRunUnique(s[1..], |d|);
    assert s[1..|d| + 1] == d;
    assert s[|d| + 2..] == rest;
  }

  /** The text `[digits of k]` followed by anything is one group whose value is k. */
  lemma IndexGroup(k: nat, rest: string)
    ensures var d := NatDigits(k);
      var s := "[" + d + "]" + rest;
      GroupLength(s) == |d| + 2 && s[1..|d| + 1] == d && s[|d| + 2..] == rest
  {
    DigitsGroup(NatDigits(k), rest);
  }

  /** A good name followed by a delimiter holds no delimiter itself. */
  lemma NameClean(n: string, rest: string)
    requires GoodName(n)
    requires rest == [] || rest[0] == '.' || rest[0] == '['
    ensures PieceClean(n, rest)
  {
    forall j | 0 <= j < |n|
      ensures n[j] != '.' && GroupLength(n[j..] + rest) == 0
    {
      GroupBlocked(n[j..], rest);
    }
  }

  /** A name collected up to a delimiter becomes one name step. */
  lemma ScanName(n: string, rest: string)
    requires GoodName(n)
    requires rest == [] || rest[0] == '.' || (rest[0] == '[' && GroupLength(rest) > 0)
    ensures Scan(n + rest, []) == [Name(n)] + Scan(rest, [])
  {
    NameClean(n, rest);
    ScanThroughName(n, rest, []);
    assert [] + n == n;
    ScanAtBoundary(rest, n);
  }

  /** A leading `.` is dropped, with the empty piece before it. */
  lemma ScanDot(t: string)
    ensures Scan("." + t, []) == Scan(t, [])
  {
    var s := "." + t;
    assert s[0] == '.' && s[1..] == t;
  }

  /** A name step, then the rendering of the remaining steps. */
  lemma ScanNameStep(n: string, rest: string, first: bool)
    requires GoodName(n)
    requires rest == [] || rest[0] == '.' || (rest[0] == '[' && GroupLength(rest) > 0)
    ensures Scan(StepText(Name(n), first) + rest, []) == [Name(n)] + Scan(rest, [])
  {
    ScanName(n, rest);
    if !first {
      assert StepText(Name(n), first) + rest == "." + (n + rest);
      ScanDot(n + rest);
    }
  }

  /** An index step, then the rendering of the remaining steps. */
  lemma ScanIndexStep(k: nat, rest: string, first: bool)
    ensures Scan(StepText(Index(k), first) + rest, []) == [Index(k)] + Scan(rest, [])
  {
    var d := NatDigits(k);
    var s := "[" + d + "]" + rest;
    IndexGroup(k, rest);
    DigitsRoundTrip(k);
    assert StepText(Index(k), first) + rest == s;
    assert s[0] == '[';
    var g := GroupLength(s);
    assert Scan(s, []) == Flush([]) + [Index(DigitsValue(s[1..g - 1]))] + Scan(s[g..], []);
  }

  lemma {:induction false} ScanRender(steps: seq<Step>, first: bool)
    requires WellFormed(steps)
    ensures Scan(RenderFrom(steps, first), []) == steps
    decreases |steps|
  {
    if steps != [] {
      var rest := RenderFrom(steps[1..], false);
      assert WellFormed(steps[1..]) by {
        forall i | 0 <= i < |steps[1..]| && steps[1..][i].Name?
          ensures GoodName(steps[1..][i].name)
        {
          assert steps[1..][i] == steps[i + 1];
        }
      }
      ScanRender(steps[1..], false);
      RenderTailStart(steps[1..]);
      match steps[0]
      case Name(n) =>
        assert GoodName(steps[0].name);
        ScanNameStep(n, rest, first);
      case Index(k) =>
        ScanIndexStep(k, rest, first);
      assert steps == [steps[0]] + steps[1..];
    }
  }

  /** Tokenize is a left inverse of Render on well-formed steps. */
  lemma TokenizeRender(steps: seq<Step>)
    requires WellFormed(steps)
    ensures Tokenize(Render(steps)) == steps
  {
    ScanRender(steps, true);
  }

  /** Rendering the steps of any path and tokenizing again gives the same steps. */
  lemma TokenizeIdempotent(path: string)
    ensures Tokenize(Render(Tokenize(path))) == Tokenize(path)
  {
    TokenizeWellFormed(path);
    TokenizeRender(Tokenize(path));
  }

  /** An example path: "images[0].uri" is images, [0], uri. */
  lemma TokenizeExample()
    ensures Tokenize("images[0].uri") == [Name("images"), Index(0), Name("uri")]
  {
    var steps := [Name("images"), Index(0), Name("uri")];
    assert Render(steps) == "images[0].uri" by {
      assert NatDigits(0) == "0";
    }
    assert GoodName("images") by {
      forall j | 0 <= j < 6 ensures "images"[j] != '.' && GroupLength("images"[j..]) == 0 { }
    }
    assert GoodName("uri") by {
      forall j | 0 <= j < 3 ensures "uri"[j] != '.' && GroupLength("uri"[j..]) == 0 { }
    }
    TokenizeRender(steps);
  }

  /** A group directly followed by a name: "a[0]b" is a, [0], b. */
  lemma TokenizeGroupExample()
    ensures Tokenize("a[0]b") == [Name("a"), Index(0), Name("b")]
  {
    OneCharName('a');
    OneCharName('b');
    TokenizeGroup("a", 0, "b");
    var zero := NatDigits(0);
    assert zero == "0";
    var path := "a" + ("[" + zero + "]") + "b";
    assert path == "a[0]b";
    assert Tokenize(path) == Tokenize("a") + [Index(0)] + Tokenize("b");
  }
}
