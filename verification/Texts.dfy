/** Splitting, joining and trimming text. */
module Texts {

  predicate IsWhitespace(c: char) {
    || '\t' <= c <= '\r' || '\U{1c}' <= c <= '\U{20}' || c in {'\U{85}', '\U{a0}', '\U{1680}'}
    || '\U{2000}' <= c <= '\U{200a}' || c in {'\U{2028}', '\U{2029}', '\U{202f}', '\U{205f}', '\U{3000}'}
  }

  /** Stripping would leave the text as it is. */
  predicate IsTrimmed(text: string) {
    text != "" ==> !IsWhitespace(text[0]) && !IsWhitespace(text[|text| - 1])
  }

  /** The position of the first c, or the length of the text. */
  function IndexOf(text: string, c: char): (i: nat)
    ensures i <= |text| && c !in text[..i]
    ensures i < |text| ==> text[i] == c
  {
    if text == "" || text[0] == c then 0
    else
      var i := IndexOf(text[1..], c);
      assert text[..i + 1] == [text[0]] + text[1..][..i];
      i + 1
  }

  function Split(text: string, sep: char): (parts: seq<string>)
    ensures parts != []
    decreases |text|
  {
    var i := IndexOf(text, sep);
    if i == |text| then [text] else [text[..i]] + Split(text[i + 1..], sep)
  }

  function Join(parts: seq<string>, sep: char): string
    requires parts != []
  {
    if |parts| == 1 then parts[0] else parts[0] + [sep] + Join(parts[1..], sep)
  }

  lemma IndexIs(text: string, c: char, i: nat)
    requires i <= |text| && c !in text[..i] && (i < |text| ==> text[i] == c)
    ensures IndexOf(text, c) == i
  {
  }

  /** Parts without the separator survive joining and splitting. */
  lemma {:induction false} SplitOfJoin(parts: seq<string>, sep: char)
    requires parts != [] && forall k | 0 <= k < |parts| :: sep !in parts[k]
    ensures Split(Join(parts, sep), sep) == parts
  {
    var text := Join(parts, sep);
    if |parts| == 1 {
      IndexIs(text, sep, |text|);
    } else {
      SplitOfJoin(parts[1..], sep);
      IndexIs(text, sep, |parts[0]|);
      assert text[..|parts[0]|] == parts[0] && text[|parts[0]| + 1..] == Join(parts[1..], sep);
      assert parts == [parts[0]] + parts[1..];
    }
  }

  /** Appending the separator adds one empty part. */
  lemma {:induction false} JoinWithTrailer(parts: seq<string>, sep: char)
    requires parts != []
    ensures Join(parts + [""], sep) == Join(parts, sep) + [sep]
  {
    if |parts| == 1 {
      assert (parts + [""])[1..] == [""];
    } else {
      JoinWithTrailer(parts[1..], sep);
      assert (parts + [""])[1..] == parts[1..] + [""];
    }
  }

  /** The parts of a joined text, and the separators between them, are all it is made of. */
  lemma {:induction false} JoinHasOnly(parts: seq<string>, sep: char, c: char)
    requires parts != [] && c != sep && forall k | 0 <= k < |parts| :: c !in parts[k]
    ensures c !in Join(parts, sep)
  {
    if |parts| > 1 { JoinHasOnly(parts[1..], sep, c); }
  }

  lemma {:induction false} JoinEnds(parts: seq<string>, sep: char)
    requires parts != [] && parts[0] != "" && parts[|parts| - 1] != ""
    ensures var text := Join(parts, sep);
      && text != "" && text[0] == parts[0][0]
      && text[|text| - 1] == parts[|parts| - 1][|parts[|parts| - 1]| - 1]
  {
    if |parts| == 2 {
      assert Join(parts[1..], sep) == parts[1];
    } else if |parts| > 2 {
      JoinLast(parts[1..], sep);
    }
  }

  lemma {:induction false} JoinLast(parts: seq<string>, sep: char)
    requires parts != [] && parts[|parts| - 1] != ""
    ensures var text := Join(parts, sep);
      text != "" && text[|text| - 1] == parts[|parts| - 1][|parts[|parts| - 1]| - 1]
  {
    if |parts| > 1 { JoinLast(parts[1..], sep); }
  }
}
