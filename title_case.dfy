/**
 * `toTitleCase`: lower-case the text, split it on `_`, upper-case the first
 * character of every piece and join the pieces with one space.
 */
module TitleCase {
  import opened Wrappers
  import opened JsString

  /** `String.prototype.split` with a one-character separator: there is always at least one piece, and no piece holds the separator. */
  function Split(s: string, sep: char): (r: seq<string>)
    ensures |r| >= 1
    ensures forall k :: 0 <= k < |r| ==> sep !in r[k]
  {
    if s == [] then [[]]
    else
      var rest := Split(s[1..], sep);
      if s[0] == sep then [[]] + rest else [[s[0]] + rest[0]] + rest[1..]
  }

  /** `Array.prototype.join` with a one-character separator. */
  function Join(ws: seq<string>, sep: char): (r: string)
    ensures |ws| >= 1 ==> ws[0] <= r
    ensures |r| >= |ws| - 1
  {
    if |ws| == 0 then []
    else if |ws| == 1 then ws[0]
    else ws[0] + [sep] + Join(ws[1..], sep)
  }

  /** `word.charAt(0).toUpperCase() + word.slice(1)`. */
  function CapitalizeFirst(w: string): (r: string)
    ensures |r| == |w|
    ensures w != [] ==> r[0] == Upper(w[0])
    ensures forall k :: 0 < k < |w| ==> r[k] == w[k]
  {
    if w == [] then [] else [Upper(w[0])] + w[1..]
  }

  /** The `.map` over the pieces. */
  function CapitalizeAll(ws: seq<string>): (r: seq<string>)
    ensures |r| == |ws|
    ensures forall k :: 0 <= k < |ws| ==> r[k] == CapitalizeFirst(ws[k])
  {
    if ws == [] then [] else [CapitalizeFirst(ws[0])] + CapitalizeAll(ws[1..])
  }

  /** `toTitleCase(str)`; `None` stands for `undefined`. */
  function ToTitleCase(str: Option<string>): (r: string)
    ensures str.None? || str.value == [] ==> r == []
    ensures |r| == if str.Some? then |str.value| else 0
  {
    if str.None? || str.value == [] then []
    else
      PipelineIsScan(LowerStr(str.value));
      Join(CapitalizeAll(Split(LowerStr(str.value), '_')), ' ')
  }

  // ---------------------------------------------------------------------------
  // Reference definitions

  /**
   * What `toTitleCase` puts at position `i`, stated on the input alone: `_`
   * becomes a space; the first character and every character right after a `_`
   * is upper-cased; everything else is lower-cased.
   */
  function TitleCharAt(s: string, i: nat): char
    requires i < |s|
  {
    if s[i] == '_' then ' '
    else if i == 0 || s[i - 1] == '_' then Upper(s[i])
    else Lower(s[i])
  }

  /** A single left-to-right pass over already lower-cased text; `atStart` says whether a piece begins here. */
  function Scan(t: string, atStart: bool): (r: string)
    ensures |r| == |t|
  {
    if t == [] then []
    else if t[0] == '_' then [' '] + Scan(t[1..], true)
    else [if atStart then Upper(t[0]) else t[0]] + Scan(t[1..], false)
  }

  // ---------------------------------------------------------------------------
  // Split and join

  /**
   * A join of two or more pieces is the first piece, one separator and the join
   * of the rest, whether or not the pieces themselves contain the separator.
   */
  lemma JoinSeparates(ws: seq<string>, sep: char)
    requires |ws| >= 2
    ensures |Join(ws, sep)| > |ws[0]|
    ensures Join(ws, sep)[..|ws[0]|] == ws[0]
    ensures Join(ws, sep)[|ws[0]|] == sep
    ensures Join(ws, sep)[|ws[0]| + 1..] == Join(ws[1..], sep)
  {
  }

  /** Joining the pieces of a split with the same separator gives back the text. */
  lemma {:induction false} JoinSplit(s: string, sep: char)
    ensures Join(Split(s, sep), sep) == s
  {
    if s != [] {
      var rest := Split(s[1..], sep);
      JoinSplit(s[1..], sep);
      if s[0] == sep {
        assert Split(s, sep)[1..] == rest;
      } else {
        JoinPrependToHead(s[0], rest[0], rest[1..], sep);
        assert [rest[0]] + rest[1..] == rest;
      }
    }
  }

  /** Splitting a join of separator-free pieces gives back the pieces. */
  lemma {:induction false} SplitJoin(ws: seq<string>, sep: char)
    requires |ws| >= 1
    requires forall k :: 0 <= k < |ws| ==> sep !in ws[k]
    ensures Split(Join(ws, sep), sep) == ws
    decreases |ws|, |ws[0]|
  {
    if |ws| == 1 {
      SplitPiece(ws[0], sep);
    } else if ws[0] == [] {
      var tail := Join(ws[1..], sep);
      assert Join(ws, sep) == [sep] + tail;
      assert ([sep] + tail)[1..] == tail;
      SplitJoin(ws[1..], sep);
      assert [ws[0]] + ws[1..] == ws;
    } else {
      var w := ws[0];
      var shorter := [w[1..]] + ws[1..];
      assert sep !in w[1..] by { assert forall c :: c in w[1..] ==> c in w; }
      SplitJoin(shorter, sep);
      JoinPrependToHead(w[0], w[1..], ws[1..], sep);
      assert [w[0]] + w[1..] == w;
      var j := Join(ws, sep);
      assert j == [w[0]] + Join(shorter, sep);
      assert j[1..] == Join(shorter, sep);
      assert j[0] == w[0] && w[0] != sep;
      assert Split(j, sep) == [[w[0]] + w[1..]] + ws[1..];
    }
  }

  /** A piece without the separator splits into itself. */
  lemma {:induction false} SplitPiece(w: string, sep: char)
    requires sep !in w
    ensures Split(w, sep) == [w]
  {
    if w != [] {
      assert sep !in w[1..] by { assert forall c :: c in w[1..] ==> c in w; }
      SplitPiece(w[1..], sep);
      assert [w[0]] + w[1..] == w;
    }
  }

  /** Putting a character in front of the first piece puts it in front of the joined text. */
  lemma JoinPrependToHead(c: char, w: string, ws: seq<string>, sep: char)
    ensures Join([[c] + w] + ws, sep) == [c] + Join([w] + ws, sep)
  {
    if ws != [] {
      assert ([[c] + w] + ws)[1..] == ws;
      assert ([w] + ws)[1..] == ws;
    }
  }

  // ---------------------------------------------------------------------------
  // The pipeline is the single pass

  /** The pieces after the `.map`, except that the first is capitalised only when `atStart` holds. */
  function Pieces(r: seq<string>, atStart: bool): seq<string>
    requires |r| >= 1
  {
    [if atStart then CapitalizeFirst(r[0]) else r[0]] + CapitalizeAll(r[1..])
  }

  /** The single pass matches split, capitalise-all-but-possibly-the-first and join. */
  lemma {:induction false} ScanMatchesPipeline(t: string, atStart: bool)
    ensures Scan(t, atStart) == Join(Pieces(Split(t, '_'), atStart), ' ')
  {
    if t == [] {
      assert Pieces(Split(t, '_'), atStart) == [[]];
    } else if t[0] == '_' {
      ScanMatchesPipeline(t[1..], true);
      ScanUnderscoreStep(t, atStart);
    } else {
      ScanMatchesPipeline(t[1..], false);
      ScanCharacterStep(t, atStart);
    }
  }

  /** A leading `_` is an empty piece, which the join turns into a leading space. */
  lemma ScanUnderscoreStep(t: string, atStart: bool)
    requires t != [] && t[0] == '_'
    ensures Join(Pieces(Split(t, '_'), atStart), ' ') == [' '] + Join(Pieces(Split(t[1..], '_'), true), ' ')
  {
    var rest := Split(t[1..], '_');
    var tail := Pieces(rest, true);
    assert Split(t, '_') == [[]] + rest;
    assert CapitalizeAll(rest) == tail;
    var ws := Pieces(Split(t, '_'), atStart);
    assert ws == [[]] + tail;
    assert ws[1..] == tail;
  }

  /** Any other leading character starts the first piece, capitalised only at a piece boundary. */
  lemma ScanCharacterStep(t: string, atStart: bool)
    requires t != [] && t[0] != '_'
    ensures Join(Pieces(Split(t, '_'), atStart), ' ') ==
      [if atStart then Upper(t[0]) else t[0]] + Join(Pieces(Split(t[1..], '_'), false), ' ')
  {
    var rest := Split(t[1..], '_');
    var x := if atStart then Upper(t[0]) else t[0];
    var r := Split(t, '_');
    assert r == [[t[0]] + rest[0]] + rest[1..];
    assert (if atStart then CapitalizeFirst(r[0]) else r[0]) == [x] + rest[0] by {
      assert ([t[0]] + rest[0])[1..] == rest[0];
    }
    assert Pieces(r, atStart) == [[x] + rest[0]] + CapitalizeAll(rest[1..]);
    JoinPrependToHead(x, rest[0], CapitalizeAll(rest[1..]), ' ');
  }

  /** Split, capitalise every piece and join is the single pass started at a piece boundary. */
  lemma PipelineIsScan(t: string)
    ensures Join(CapitalizeAll(Split(t, '_')), ' ') == Scan(t, true)
  {
    ScanMatchesPipeline(t, true);
    assert Pieces(Split(t, '_'), true) == CapitalizeAll(Split(t, '_'));
  }

  /** `toTitleCase` of a string is the single pass over its lower-cased form. */
  lemma ToTitleCaseIsScan(s: string)
    ensures ToTitleCase(Some(s)) == Scan(LowerStr(s), true)
  {
    if s != [] {
      PipelineIsScan(LowerStr(s));
    }
  }

  /** Position `i` of the single pass. */
  lemma {:induction false} ScanAt(t: string, atStart: bool, i: nat)
    requires i < |t|
    ensures Scan(t, atStart)[i] ==
      if t[i] == '_' then ' '
      else if (if i == 0 then atStart else t[i - 1] == '_') then Upper(t[i])
      else t[i]
  {
    if i > 0 {
      ScanAt(t[1..], t[0] == '_', i - 1);
    }
  }

  // ---------------------------------------------------------------------------
  // Properties of toTitleCase

  /** The output has the input's length and, position by position, is the reference `TitleCharAt`. */
  lemma TitleCaseAt(s: string)
    ensures |ToTitleCase(Some(s))| == |s|
    ensures forall i :: 0 <= i < |s| ==> ToTitleCase(Some(s))[i] == TitleCharAt(s, i)
  {
    ToTitleCaseIsScan(s);
    var t := LowerStr(s);
    forall i | 0 <= i < |s|
      ensures ToTitleCase(Some(s))[i] == TitleCharAt(s, i)
    {
      ScanAt(t, true, i);
      CaseMappingFacts(s[i]);
      if i > 0 { CaseMappingFacts(s[i - 1]); }
    }
  }

  /**
   * A space in the output stands exactly where the input had `_` or a space,
   * so no `_` survives.
   */
  lemma TitleCaseSpaces(s: string)
    ensures forall i :: 0 <= i < |s| ==> (ToTitleCase(Some(s))[i] == ' ' <==> s[i] == '_' || s[i] == ' ')
    ensures '_' !in ToTitleCase(Some(s))
  {
    TitleCaseAt(s);
    var out := ToTitleCase(Some(s));
    forall i | 0 <= i < |s|
      ensures (out[i] == ' ' <==> s[i] == '_' || s[i] == ' ') && out[i] != '_'
    {
      CaseMappingFacts(s[i]);
    }
  }

  /**
   * A letter at the start or right after `_` is upper-case in the output; every
   * other letter is lower-case; characters that are not letters are kept, bar `_`.
   */
  lemma TitleCaseCasing(s: string, i: nat)
    requires i < |s|
    ensures IsAsciiLetter(s[i]) && (i == 0 || s[i - 1] == '_') ==> IsAsciiUpper(ToTitleCase(Some(s))[i])
    ensures IsAsciiLetter(s[i]) && i > 0 && s[i - 1] != '_' ==> IsAsciiLower(ToTitleCase(Some(s))[i])
    ensures !IsAsciiLetter(s[i]) && s[i] != '_' ==> ToTitleCase(Some(s))[i] == s[i]
  {
    TitleCaseAt(s);
  }

  /** A space is not a word boundary: the letter after it is lower-cased. */
  lemma SpaceIsNotBoundary(s: string, i: nat)
    requires 0 < i < |s| && s[i - 1] == ' ' && IsAsciiLetter(s[i])
    ensures IsAsciiLower(ToTitleCase(Some(s))[i])
  {
    TitleCaseCasing(s, i);
  }

  /** Any string that agrees with `TitleCharAt` everywhere is the output of `toTitleCase`. */
  lemma TitleCaseFromReference(s: string, expected: string)
    requires |expected| == |s|
    requires forall i :: 0 <= i < |s| ==> expected[i] == TitleCharAt(s, i)
    ensures ToTitleCase(Some(s)) == expected
  {
    TitleCaseAt(s);
  }

  lemma MaxPowerExample()
    ensures ToTitleCase(Some("max power")) == "Max power"
  {
    TitleCaseFromReference("max power", "Max power");
  }

  /** Leading, doubled and trailing underscores give empty pieces and so extra spaces. */
  lemma EmptyPiecesExample()
    ensures ToTitleCase(Some("a__b")) == "A  B"
    ensures ToTitleCase(Some("_a_")) == " A "
  {
    TitleCaseFromReference("a__b", "A  B");
    TitleCaseFromReference("_a_", " A ");
  }

  /** `toTitleCase` is not idempotent once the text has more than one piece. */
  lemma NotIdempotent()
    ensures ToTitleCase(Some("a_b")) == "A B"
    ensures ToTitleCase(Some("A B")) == "A b"
    ensures ToTitleCase(Some(ToTitleCase(Some("a_b")))) != ToTitleCase(Some("a_b"))
  {
    TitleCaseFromReference("a_b", "A B");
    TitleCaseFromReference("A B", "A b");
  }

  /** On text without `_` (one piece), applying `toTitleCase` twice is the same as once. */
  lemma IdempotentOnOnePiece(s: string)
    requires '_' !in s
    ensures ToTitleCase(Some(ToTitleCase(Some(s)))) == ToTitleCase(Some(s))
  {
    var out := ToTitleCase(Some(s));
    TitleCaseAt(s);
    TitleCaseAt(out);
    forall i | 0 <= i < |s|
      ensures ToTitleCase(Some(out))[i] == out[i]
    {
      CaseMappingFacts(s[i]);
      if i > 0 { CaseMappingFacts(s[i - 1]); }
    }
  }
}
