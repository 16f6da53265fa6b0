/**
 * The text-level pieces of the Ren'Py exporter: `toRenpyId`, which turns any id or name
 * into a Ren'Py identifier, and the escaping of text placed inside Ren'Py string literals.
 */
module RenpyText {
  import opened Wrappers
  import opened Model

  // ---------------------------------------------------------------------------
  // toRenpyId

  /** The characters `[a-zA-Z0-9_]` that `toRenpyId` keeps. */
  predicate IsWordChar(c: char)
  {
    ('a' <= c <= 'z') || ('A' <= c <= 'Z') || ('0' <= c <= '9') || c == '_'
  }

  /** The characters a Ren'Py tag produced here may contain: `[a-z0-9_]`. */
  predicate IsTagChar(c: char)
  {
    ('a' <= c <= 'z') || ('0' <= c <= '9') || c == '_'
  }

  /** `replace(/[^a-zA-Z0-9_]/g, '_')`: every other character becomes one underscore. */
  function ReplaceIllegal(s: string): (r: string)
    ensures |r| == |s|
    ensures forall i :: 0 <= i < |s| ==> r[i] == if IsWordChar(s[i]) then s[i] else '_'
  {
    if s == [] then [] else [if IsWordChar(s[0]) then s[0] else '_'] + ReplaceIllegal(s[1..])
  }

  /** Lower-casing of one ASCII letter; every other character is left alone. */
  function LowerChar(c: char): char
  {
    if 'A' <= c <= 'Z' then (c as int + 32) as char else c
  }

  /**
   * `toLowerCase` on ASCII letters. Applied after `ReplaceIllegal` it is exact, because only
   * `[a-zA-Z0-9_]` is left by then.
   */
  function AsciiLower(s: string): (r: string)
    ensures |r| == |s|
    ensures forall i :: 0 <= i < |s| ==> r[i] == LowerChar(s[i])
  {
    if s == [] then [] else [LowerChar(s[0])] + AsciiLower(s[1..])
  }

  /** `toRenpyId`. */
  function RenpyId(s: string): (r: string)
    ensures |r| == |s|
    ensures forall i :: 0 <= i < |r| ==> IsTagChar(r[i])
    ensures forall i :: 0 <= i < |s| && IsWordChar(s[i]) ==> r[i] == LowerChar(s[i])
    ensures forall i :: 0 <= i < |s| && !IsWordChar(s[i]) ==> r[i] == '_'
  {
    AsciiLower(ReplaceIllegal(s))
  }

  /** A tag is its own `toRenpyId`, so sanitising twice changes nothing. */
  lemma RenpyIdIdempotent(s: string)
    ensures RenpyId(RenpyId(s)) == RenpyId(s)
  {
    RenpyIdFixesTags(RenpyId(s));
  }

  lemma RenpyIdFixesTags(s: string)
    requires forall i :: 0 <= i < |s| ==> IsTagChar(s[i])
    ensures RenpyId(s) == s
  {
    assert forall i :: 0 <= i < |s| ==> IsWordChar(s[i]) && LowerChar(s[i]) == s[i];
  }

  /** Sanitising distributes over concatenation, so `toRenpyId('bg_' + id)` is `'bg_' + toRenpyId(id)`. */
  lemma RenpyIdAppend(a: string, b: string)
    ensures RenpyId(a + b) == RenpyId(a) + RenpyId(b)
  {
    ReplaceIllegalAppend(a, b);
    AsciiLowerAppend(ReplaceIllegal(a), ReplaceIllegal(b));
  }

  lemma {:induction false} ReplaceIllegalAppend(a: string, b: string)
    ensures ReplaceIllegal(a + b) == ReplaceIllegal(a) + ReplaceIllegal(b)
  {
    if a == [] {
      assert a + b == b;
    } else {
      assert (a + b)[1..] == a[1..] + b;
      ReplaceIllegalAppend(a[1..], b);
    }
  }

  lemma {:induction false} AsciiLowerAppend(a: string, b: string)
    ensures AsciiLower(a + b) == AsciiLower(a) + AsciiLower(b)
  {
    if a == [] {
      assert a + b == b;
    } else {
      assert (a + b)[1..] == a[1..] + b;
      AsciiLowerAppend(a[1..], b);
    }
  }

  /** Illegal characters become underscores rather than disappearing: `장면 1` becomes `___1`. */
  lemma UnderscoresNotDeletion()
    ensures RenpyId("장면 1") == "___1"
  {
    var s := "장면 1";
    var r := RenpyId(s);
    assert !IsWordChar(s[0]) && !IsWordChar(s[1]) && !IsWordChar(s[2]) && IsWordChar(s[3]);
    assert r[0] == '_' && r[1] == '_' && r[2] == '_' && r[3] == LowerChar('1');
    assert r == "___1";
  }

  /** Different ids can share a tag: `Scene-2` and `scene_2` both become `scene_2`. */
  lemma DistinctIdsShareTag()
    ensures RenpyId("Scene-2") == RenpyId("scene_2") == "scene_2"
  {
    var s := "Scene-2";
    var r := RenpyId(s);
    assert IsWordChar(s[0]) && IsWordChar(s[1]) && IsWordChar(s[4]) && !IsWordChar(s[5]) && IsWordChar(s[6]);
    assert r[0] == LowerChar('S') == 's';
    assert r == "scene_2";
    RenpyIdFixesTags("scene_2");
  }

  /**
   * The neutral test of the exporter compares `name.toLowerCase()` with `중립`. Hangul has no
   * case, so this holds exactly when the name is `중립`; the ASCII lower-casing gives the
   * same answer.
   */
  lemma LowerNeutralIsNeutral(name: string)
    ensures AsciiLower(name) == Neutral <==> name == Neutral
  {
    if name == Neutral {
      assert AsciiLower(name) == Neutral by {
        assert forall i :: 0 <= i < |name| ==> LowerChar(name[i]) == name[i];
      }
    }
    if AsciiLower(name) == Neutral {
      assert |name| == 2;
      assert LowerChar(name[0]) == '중' && LowerChar(name[1]) == '립';
    }
  }

  // ---------------------------------------------------------------------------
  // String literals

  /**
   * The exporter's escaping as written: `replace(/"/g, '\\"')` for say and menu text,
   * `replace(/'/g, "\\'")` for names in `Character('...')`. Backslashes are left as they are.
   */
  function EscapeQuoteOnly(s: string, q: char): (r: string)
    ensures |s| <= |r|
    ensures q !in s ==> r == s
    ensures q != '\\' ==> forall i :: 0 <= i < |r| && r[i] == q ==> 0 < i && r[i - 1] == '\\'
  {
    if s == [] then [] else (if s[0] == q then ['\\', q] else [s[0]]) + EscapeQuoteOnly(s[1..], q)
  }

  /** The escaping the literal needs: a backslash is doubled and the quote is preceded by one. */
  function Escape(s: string, q: char): (r: string)
    ensures |s| <= |r|
    ensures q !in s && '\\' !in s ==> r == s
    ensures q != '\\' ==> forall i :: 0 <= i < |r| && r[i] == q ==> 0 < i && r[i - 1] == '\\'
  {
    if s == [] then []
    else (if s[0] == '\\' then ['\\', '\\'] else if s[0] == q then ['\\', q] else [s[0]]) + Escape(s[1..], q)
  }

  /**
   * How Ren'Py reads the body of a string literal opened by `q`: a backslash takes the next
   * character literally, `q` closes the literal. The result is the text read and the
   * position of the closing quote, or `None` when the input ends first.
   */
  function ReadLiteral(t: string, q: char): (r: Option<(string, nat)>)
    ensures r.Some? ==> r.value.1 < |t| && t[r.value.1] == q
    decreases |t|
  {
    if t == [] then None
    else if t[0] == q then Some(([], 0))
    else if t[0] == '\\' then
      if |t| < 2 then None
      else match ReadLiteral(t[2..], q)
        case None => None
        case Some((d, k)) => Some(([t[1]] + d, k + 2))
    else match ReadLiteral(t[1..], q)
      case None => None
      case Some((d, k)) => Some(([t[0]] + d, k + 1))
  }

  /**
   * The escaped text, followed by the closing quote and anything else, is read back as
   * exactly the original text, and the literal closes at that quote.
   */
  lemma {:induction false} EscapeRoundTrip(s: string, q: char, rest: string)
    requires q != '\\'
    ensures ReadLiteral(Escape(s, q) + [q] + rest, q) == Some((s, |Escape(s, q)|))
  {
    if s == [] {
      assert (Escape(s, q) + [q] + rest)[0] == q;
    } else {
      var c, e := s[0], Escape(s[1..], q);
      EscapeRoundTrip(s[1..], q, rest);
      if c == '\\' || c == q {
        assert Escape(s, q) == ['\\', c] + e;
        Regroup(['\\', c], e, Escape(s, q), [q], rest);
        ReadEscaped(c, e + [q] + rest, q, s[1..], |e|);
      } else {
        assert Escape(s, q) == [c] + e;
        Regroup([c], e, Escape(s, q), [q], rest);
        ReadPlain(c, e + [q] + rest, q, s[1..], |e|);
      }
      assert [c] + s[1..] == s;
    }
  }

  lemma Regroup<T>(h: seq<T>, e: seq<T>, x: seq<T>, y: seq<T>, z: seq<T>)
    requires x == h + e
    ensures x + y + z == h + (e + y + z)
  {
  }

  /** A backslash takes the next character literally. */
  lemma ReadEscaped(c: char, tail: string, q: char, d: string, k: nat)
    requires q != '\\' && ReadLiteral(tail, q) == Some((d, k))
    ensures ReadLiteral(['\\', c] + tail, q) == Some(([c] + d, k + 2))
  {
    assert (['\\', c] + tail)[2..] == tail;
  }

  /** Any other character but the quote is read as itself. */
  lemma ReadPlain(c: char, tail: string, q: char, d: string, k: nat)
    requires c != '\\' && c != q && ReadLiteral(tail, q) == Some((d, k))
    ensures ReadLiteral([c] + tail, q) == Some(([c] + d, k + 1))
  {
    assert ([c] + tail)[1..] == tail;
  }

  /** Without backslashes in the text, the exporter's escaping is already the needed one. */
  lemma {:induction false} QuoteOnlySufficesWithoutBackslash(s: string, q: char)
    requires '\\' !in s
    ensures EscapeQuoteOnly(s, q) == Escape(s, q)
  {
    if s != [] {
      assert s[0] != '\\';
      QuoteOnlySufficesWithoutBackslash(s[1..], q);
    }
  }

  /**
   * As written, a text ending in a backslash escapes the closing quote: the say statement
   * `"C:\"` never closes, so Ren'Py reads on into the following lines.
   */
  lemma TrailingBackslashBreaksLiteral()
    ensures ReadLiteral(EscapeQuoteOnly("C:\\", '"') + "\"\n", '"') == None
    ensures ReadLiteral(Escape("C:\\", '"') + "\"\n", '"') == Some(("C:\\", 4))
  {
    EscapeRoundTrip("C:\\", '"', "\n");
    assert Escape("C:\\", '"') == "C:\\\\";
    assert EscapeQuoteOnly("C:\\", '"') == "C:\\";
    var t := "C:\\" + "\"\n";
    assert t == ['C', ':', '\\', '"', '\n'];
    NoQuoteNoLiteral(['\n'], '"');
    assert t[2..][2..] == ['\n'];
    assert ReadLiteral(t[2..], '"') == None;
    assert t[1..][1..] == t[2..];
    assert ReadLiteral(t[1..], '"') == None;
    assert ReadLiteral(t, '"') == None;
    assert EscapeQuoteOnly("C:\\", '"') + "\"\n" == t;
    assert Escape("C:\\", '"') + "\"\n" == Escape("C:\\", '"') + ['"'] + "\n";
  }

  /** A text without the closing quote never closes a literal. */
  lemma {:induction false} NoQuoteNoLiteral(t: string, q: char)
    requires q !in t
    ensures ReadLiteral(t, q) == None
  {
    if t != [] && t[0] != q {
      if t[0] == '\\' {
        if |t| >= 2 {
          NoQuoteNoLiteral(t[2..], q);
        }
      } else {
        NoQuoteNoLiteral(t[1..], q);
      }
    }
  }
}
