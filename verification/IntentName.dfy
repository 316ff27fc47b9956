/** The intent-name grammar (include/LogosIntent.h:75-135) and the scanner that recognises it. */
module IntentName {

  predicate Lower(c: char) { 'a' <= c <= 'z' }

  predicate Alnum(c: char) { Lower(c) || '0' <= c <= '9' }

  function Join(parts: seq<string>, sep: char): string
    requires parts != []
  {
    if |parts| == 1 then parts[0] else parts[0] + [sep] + Join(parts[1..], sep)
  }

  function Split(s: string, sep: char): (parts: seq<string>)
    ensures parts != []
  {
    if s == [] then [[]]
    else
      var rest := Split(s[1..], sep);
      if s[0] == sep then [[]] + rest else [[s[0]] + rest[0]] + rest[1..]
  }

  // ---- the grammar ----

  /** [a-z0-9]+ */
  predicate Word(w: string) {
    w != [] && forall i :: 0 <= i < |w| ==> Alnum(w[i])
  }

  /** segment := [a-z] [a-z0-9]* ( "_" [a-z0-9]+ )* */
  ghost predicate Segment(s: string) {
    exists words: seq<string> ::
      && words != [] && s == Join(words, '_')
      && (forall i :: 0 <= i < |words| ==> Word(words[i])) && Lower(words[0][0])
  }

  /** intent := segment ( "." segment ){1,3}, between 3 and 64 characters long */
  ghost predicate Name(name: string) {
    && 3 <= |name| <= 64
    && exists segments: seq<string> ::
         && 2 <= |segments| <= 4 && name == Join(segments, '.')
         && forall i :: 0 <= i < |segments| ==> Segment(segments[i])
  }

  // ---- split and join undo each other ----

  lemma {:induction false} JoinSplit(s: string, sep: char)
    ensures Join(Split(s, sep), sep) == s
    decreases |s|
  {
    if s != [] {
      JoinSplit(s[1..], sep);
      var parts, rest := Split(s, sep), Split(s[1..], sep);
      if s[0] == sep {
        assert parts[1..] == rest;
      } else if |rest| > 1 {
        assert parts[1..] == rest[1..];
      }
    }
  }

  lemma {:induction false} SplitParts(s: string, sep: char)
    ensures forall i :: 0 <= i < |Split(s, sep)| ==> sep !in Split(s, sep)[i]
    decreases |s|
  {
    if s != [] {
      SplitParts(s[1..], sep);
    }
  }

  lemma {:induction false} SplitJoin(parts: seq<string>, sep: char)
    requires parts != [] && forall i :: 0 <= i < |parts| ==> sep !in parts[i]
    ensures Split(Join(parts, sep), sep) == parts
    decreases |parts|, |parts[0]|
  {
    var s := Join(parts, sep);
    if parts[0] == [] {
      if |parts| > 1 {
        SplitJoin(parts[1..], sep);
        assert s[1..] == Join(parts[1..], sep);
        assert parts == [[]] + parts[1..];
      }
    } else {
      var c, shorter := parts[0][0], [parts[0][1..]] + parts[1..];
      assert sep !in parts[0];
      assert shorter[1..] == parts[1..];
      assert s[1..] == Join(shorter, sep);
      SplitJoin(shorter, sep);
      assert [c] + shorter[0] == parts[0];
      assert parts == [[c] + shorter[0]] + shorter[1..];
    }
  }

  // ---- the scanner ----

  /** What the scanner lets pass at one position: a letter or digit, or an underscore that is not first, not last,
      and does not follow another. */
  predicate FineAt(s: string, i: nat)
    requires i < |s|
  {
    Alnum(s[i]) || (s[i] == '_' && 0 < i < |s| - 1 && s[i - 1] != '_')
  }

  predicate Scanned(s: string) {
    s != [] && Lower(s[0]) && forall i :: 0 <= i < |s| ==> FineAt(s, i)
  }

  method IsValidSegment(seg: string) returns (valid: bool)
    ensures valid <==> Segment(seg)
  {
    ScannedIsSegment(seg);
    if seg == [] {
      return false;
    }
    var first := seg[0];
    if first < 'a' || first > 'z' {
      return false;
    }
    var prevUnderscore := false;
    for i := 0 to |seg|
      invariant forall j :: 0 <= j < i ==> FineAt(seg, j)
      invariant prevUnderscore <==> i > 0 && seg[i - 1] == '_'
    {
      var c := seg[i];
      if c == '_' {
        if prevUnderscore {
          assert !FineAt(seg, i);
          return false;
        }
        if i == |seg| - 1 {
          assert !FineAt(seg, i);
          return false;
        }
        prevUnderscore := true;
        continue;
      }
      var lower := 'a' <= c <= 'z';
      var digit := '0' <= c <= '9';
      if !lower && !digit {
        assert !FineAt(seg, i);
        return false;
      }
      prevUnderscore := false;
    }
    return true;
  }

  lemma ScannedIsSegment(s: string)
    ensures Segment(s) <==> Scanned(s)
  {
    if Scanned(s) {
      SplitWords(s);
      JoinSplit(s, '_');
    }
    if Segment(s) {
      var words: seq<string> :|
        && words != [] && s == Join(words, '_')
        && (forall i :: 0 <= i < |words| ==> Word(words[i])) && Lower(words[0][0]);
      JoinedWords(words);
    }
  }

  /** Splitting a scanned string at underscores leaves no empty word: nowhere two in a row, none at the end. */
  lemma {:induction false} SplitWords(s: string)
    requires s != [] && s[0] != '_' && forall i :: 0 <= i < |s| ==> FineAt(s, i)
    ensures forall i :: 0 <= i < |Split(s, '_')| ==> Word(Split(s, '_')[i])
    ensures Split(s, '_')[0][0] == s[0]
    decreases |s|
  {
    var parts := Split(s, '_');
    assert FineAt(s, 0);
    if |s| == 1 {
      assert Split(s[1..], '_') == [[]];
      assert [s[0]] + [] == [s[0]];
      assert parts == [[s[0]]];
    } else if s[1] == '_' {
      var t := s[2..];
      assert FineAt(s, 1) && FineAt(s, 2);
      forall i | 0 <= i < |t| ensures FineAt(t, i) {
        assert FineAt(s, i + 2);
      }
      SplitWords(t);
      assert s[1..][1..] == t;
      assert Split(s[1..], '_') == [[]] + Split(t, '_');
      assert [s[0]] + [] == [s[0]];
      assert parts == [[s[0]]] + Split(t, '_');
    } else {
      var t := s[1..];
      forall i | 0 <= i < |t| ensures FineAt(t, i) {
        assert FineAt(s, i + 1);
      }
      SplitWords(t);
      assert parts == [[s[0]] + Split(t, '_')[0]] + Split(t, '_')[1..];
    }
  }

  lemma {:induction false} JoinedWords(words: seq<string>)
    requires words != [] && forall i :: 0 <= i < |words| ==> Word(words[i])
    ensures var s := Join(words, '_');
            s != [] && words[0] != [] && s[0] == words[0][0] && s[|s| - 1] != '_' && forall i :: 0 <= i < |s| ==> FineAt(s, i)
    decreases |words|
  {
    var s, w := Join(words, '_'), words[0];
    assert Word(w);
    if |words| == 1 {
      assert s == w;
    } else {
      var t := Join(words[1..], '_');
      JoinedWords(words[1..]);
      assert Word(words[1]);
      forall i | 0 <= i < |s| ensures FineAt(s, i) {
        if i > |w| {
          assert FineAt(t, i - |w| - 1);
        }
      }
      assert s[|s| - 1] == t[|t| - 1];
    }
  }

  method IsValidName(name: string) returns (valid: bool)
    ensures valid <==> Name(name)
  {
    hide Segment, Name;
    SplitDecidesName(name);
    if |name| < 3 || |name| > 64 {
      return false;
    }
    var segments := Split(name, '.');
    if |segments| < 2 || |segments| > 4 {
      return false;
    }
    for i := 0 to |segments|
      invariant forall j :: 0 <= j < i ==> Segment(segments[j])
    {
      var fine := IsValidSegment(segments[i]);
      if !fine {
        return false;
      }
    }
    return true;
  }

  lemma SegmentHasNoDot(s: string)
    requires Segment(s)
    ensures '.' !in s
  {
    ScannedIsSegment(s);
    forall i | 0 <= i < |s| ensures s[i] != '.' {
      assert FineAt(s, i);
    }
  }

  /** The only way to cut a name into segments is at its dots. */
  lemma SplitDecidesName(name: string)
    ensures Name(name) <==>
            && 3 <= |name| <= 64 && 2 <= |Split(name, '.')| <= 4
            && forall i :: 0 <= i < |Split(name, '.')| ==> Segment(Split(name, '.')[i])
  {
    JoinSplit(name, '.');
    if Name(name) {
      var segments: seq<string> :|
        && 2 <= |segments| <= 4 && name == Join(segments, '.')
        && forall i :: 0 <= i < |segments| ==> Segment(segments[i]);
      forall i | 0 <= i < |segments| ensures '.' !in segments[i] {
        SegmentHasNoDot(segments[i]);
      }
      SplitJoin(segments, '.');
    }
  }

  // ---- the reserved namespace ----

  predicate IsReservedName(name: string) { "logos." <= name }

  /** A string starts with "logos." exactly when it has a dot and what precedes the first one is "logos";
      for a valid name that is its first segment. */
  lemma ReservedIsFirstSegment(name: string)
    ensures IsReservedName(name) <==> |Split(name, '.')| >= 2 && Split(name, '.')[0] == "logos"
    ensures Name(name) ==> (IsReservedName(name) <==> Split(name, '.')[0] == "logos")
  {
    hide Segment, Name;
    SplitDecidesName(name);
    FirstSegment("logos", name);
    assert "logos" + ['.'] == "logos.";
  }

  /** A prefix that ends at a dot is a first segment. */
  lemma FirstSegment(first: string, name: string)
    requires '.' !in first
    ensures first + ['.'] <= name <==> |Split(name, '.')| >= 2 && Split(name, '.')[0] == first
  {
    JoinSplit(name, '.');
    var parts := Split(name, '.');
    if first + ['.'] <= name {
      var rest := name[|first| + 1..];
      SplitParts(rest, '.');
      JoinSplit(rest, '.');
      var whole := [first] + Split(rest, '.');
      assert whole[1..] == Split(rest, '.');
      assert name == first + ['.'] + rest;
      SplitJoin(whole, '.');
    }
  }
}
