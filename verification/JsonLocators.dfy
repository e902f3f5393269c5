/** JSON locators, written and read back. */
module JsonLocators {
  import opened Results
  import opened Text
  import opened JsonPatch
  import JsonText
  import UnifiedLeaves

  /** One part of a locator: a name and the indices that follow it. */
  datatype Part = Part(name: string, indices: seq<nat>)

  predicate IsPart(part: Part) {
    part.name != "" && forall i :: 0 <= i < |part.name| ==> IsWord(part.name[i])
  }

  function IndicesText(indices: seq<nat>): string {
    if indices == [] then "" else "[" + JsonText.NatText(indices[0]) + "]" + IndicesText(indices[1..])
  }

  function PartTexts(parts: seq<Part>): (r: seq<string>)
    ensures |r| == |parts| && forall i :: 0 <= i < |r| ==> r[i] == parts[i].name + IndicesText(parts[i].indices)
  {
    seq(|parts|, i requires 0 <= i < |parts| => parts[i].name + IndicesText(parts[i].indices))
  }

  /** A locator such as `rules[2].actions[0].name`. */
  function LocatorText(parts: seq<Part>): string
    requires parts != []
  {
    UnifiedLeaves.JoinDots(PartTexts(parts))
  }

  function IndexSegments(indices: seq<nat>): (r: seq<Segment>)
    ensures |r| == |indices| && forall i :: 0 <= i < |r| ==> r[i] == Index(indices[i])
  {
    seq(|indices|, i requires 0 <= i < |indices| => Index(indices[i]))
  }

  /** The path the parts stand for: each name, then its indices. */
  function Segments(parts: seq<Part>): seq<Segment> {
    if parts == [] then [] else [Name(parts[0].name)] + IndexSegments(parts[0].indices) + Segments(parts[1..])
  }

  lemma {:induction false} RunEnds(s: string, p: char -> bool, k: nat)
    requires k <= |s| && (forall i :: 0 <= i < k ==> p(s[i])) && (k < |s| ==> !p(s[k]))
    ensures RunLength(s, p) == k
  {
    if k > 0 {
      RunEnds(s[1..], p, k - 1);
    }
  }

  lemma OneIndex(digits: string, rest: string)
    requires digits != "" && forall i :: 0 <= i < |digits| ==> IsDigit(digits[i])
    ensures ParseIndices("[" + digits + "]" + rest) ==
              match ParseIndices(rest) case None => None case Some(indices) => Some([Index(Decimal(digits))] + indices)
  {
    hide Decimal;
    var s := "[" + digits + "]" + rest;
    assert s[1..] == digits + "]" + rest;
    RunEnds(s[1..], IsDigit, |digits|);
    assert s[1..1 + |digits|] == digits;
    assert s[|digits| + 2..] == rest;
  }

  lemma {:induction false} IndicesBack(indices: seq<nat>)
    ensures ParseIndices(IndicesText(indices)) == Some(IndexSegments(indices))
    decreases |indices|
  {
    hide Decimal, JsonText.NatText;
    if indices == [] {
      assert IndexSegments(indices) == [];
    } else {
      JsonText.NatTextFacts(indices[0]);
      OneIndex(JsonText.NatText(indices[0]), IndicesText(indices[1..]));
      IndicesBack(indices[1..]);
      assert IndexSegments(indices) == [Index(indices[0])] + IndexSegments(indices[1..]);
    }
  }

  lemma IndicesStart(indices: seq<nat>)
    ensures IndicesText(indices) != "" ==> IndicesText(indices)[0] == '['
  {
  }

  lemma {:induction false} IndicesNoDot(indices: seq<nat>)
    ensures '.' !in IndicesText(indices)
    decreases |indices|
  {
    if indices != [] {
      IndicesNoDot(indices[1..]);
      assert '.' !in JsonText.NatText(indices[0]);
    }
  }

  lemma {:induction false} PartsBack(parts: seq<Part>)
    requires forall i :: 0 <= i < |parts| ==> IsPart(parts[i])
    ensures ParseParts(PartTexts(parts)) == Some(Segments(parts))
    decreases |parts|
  {
    if parts != [] {
      var part := parts[0];
      var text := PartTexts(parts)[0];
      assert IsPart(part);
      IndicesStart(part.indices);
      RunEnds(text, IsWord, |part.name|);
      assert text[|part.name|..] == IndicesText(part.indices) && text[..|part.name|] == part.name;
      IndicesBack(part.indices);
      assert PartTexts(parts)[1..] == PartTexts(parts[1..]);
      PartsBack(parts[1..]);
    }
  }

  /** A locator is read as the path it was written for. */
  lemma LocatorBack(parts: seq<Part>)
    requires parts != [] && forall i :: 0 <= i < |parts| ==> IsPart(parts[i])
    ensures ParseLocator(LocatorText(parts)) == Some(Segments(parts))
  {
    hide ParseParts, SplitOn;
    var texts := PartTexts(parts);
    forall i | 0 <= i < |texts| ensures '.' !in texts[i] {
      assert IsPart(parts[i]);
      IndicesNoDot(parts[i].indices);
    }
    UnifiedLeaves.SplitJoin(texts);
    PartsBack(parts);
  }
}
