/** What the catalog file may say besides its facts. */
module CatalogProse {
  import opened Results
  import opened Text
  import opened Indented
  import opened CatalogFile

  lemma {:induction false} ReadLinesAppend(p: Reader, a: seq<string>, b: seq<string>)
    requires p.Valid()
    ensures ReadLines(p, a + b) == match ReadLines(p, a) case Ok(q) => ReadLines(q, b) case Err(e) => Err(e)
    decreases |a|
  {
    hide ReadLine;
    if a == [] {
      assert a + b == b;
    } else {
      assert (a + b)[1..] == a[1..] + b;
      if ReadLine(p, a[0]).Ok? {
        ReadLinesAppend(ReadLine(p, a[0]).value, a[1..], b);
      }
    }
  }

  lemma {:induction false} SilentLines(p: Reader, noise: seq<string>)
    requires p.Valid() && forall i :: 0 <= i < |noise| ==> Tokenize(noise[i]).None?
    ensures ReadLines(p, noise) == Ok(p)
    decreases |noise|
  {
    hide Tokenize;
    if noise != [] {
      SilentLines(p, noise[1..]);
    }
  }

  /** Blank lines and comments change nothing, even between the lines of a folded role. */
  lemma CommentsDoNothing(before: seq<string>, noise: seq<string>, after: seq<string>)
    requires forall i :: 0 <= i < |noise| ==> Tokenize(noise[i]).None?
    ensures Load(before + noise + after) == Load(before + after)
  {
    hide Tokenize, ReadLine, Finish, ReadLines;
    ReadLinesAppend(START, before, noise);
    ReadLinesAppend(START, before + noise, after);
    ReadLinesAppend(START, before, after);
    if ReadLines(START, before).Ok? {
      SilentLines(ReadLines(START, before).value, noise);
    }
  }

  // ----- unknown fields ----------------------------------------------------------------------------

  predicate UnknownHead(p: Reader, t: Token) {
    && p.section == Some("ui_catalog") && p.current.Some? && t.indent == 4
    && t.text != "" && t.text != "endpoint:" && t.text != "sso_role_mapping:"
    && !StartsWith(t.text, "system:") && !StartsWith(t.text, "display_name:")
  }

  /** An unknown field of an entry and whatever is indented deeper, in any wording. */
  predicate UnknownBlock(p: Reader, block: seq<string>) {
    && block != [] && Tokenize(block[0]).Some? && UnknownHead(p, Tokenize(block[0]).value)
    && forall i :: 1 <= i < |block| && Tokenize(block[i]).Some? ==> Tokenize(block[i]).value.indent > 4
  }

  /** A section, the next entry, or the next field. */
  predicate Resumes(raw: string) {
    match Tokenize(raw)
    case None => false
    case Some(t) => t.indent == 0 || t.indent == 4 || (t.indent == 2 && StartsWith(t.text, "- "))
  }

  function Aside(p: Reader): (q: Reader)
    requires p.Valid()
    ensures q.Valid()
  {
    FinishMapping(p).(inMappings := false, block := NoBlock)
  }

  lemma HeadIsAside(p: Reader, t: Token)
    requires p.Valid() && UnknownHead(p, t)
    ensures Read(p, t) == Ok(Aside(p))
    ensures Aside(p).section == p.section && Aside(p).current.Some?
  {
    hide ReadSection, ReadStart, ReadEndpoint, ReadRole;
  }

  lemma {:induction false} ProseIgnored(p: Reader, prose: seq<string>)
    requires p.Valid() && p.section == Some("ui_catalog") && p.current.Some? && p.group.None? && !p.inMappings && p.block == NoBlock
    requires forall i :: 0 <= i < |prose| && Tokenize(prose[i]).Some? ==> Tokenize(prose[i]).value.indent > 4
    ensures ReadLines(p, prose) == Ok(p)
    decreases |prose|
  {
    hide Strip, ReadSection, ReadStart, ReadEndpoint, ReadRole, ReadField, FinishMapping, StartsWith;
    if prose != [] {
      assert ReadLine(p, prose[0]) == Ok(p);
      ProseIgnored(p, prose[1..]);
    }
  }

  lemma BlockIsAside(p: Reader, block: seq<string>)
    requires p.Valid() && UnknownBlock(p, block)
    ensures ReadLines(p, block) == Ok(Aside(p))
  {
    hide Strip, Read;
    HeadIsAside(p, Tokenize(block[0]).value);
    assert ReadLine(p, block[0]) == Ok(Aside(p));
    forall i | 0 <= i < |block[1..]| && Tokenize(block[1..][i]).Some? ensures Tokenize(block[1..][i]).value.indent > 4 {
      assert block[1..][i] == block[i + 1];
    }
    ProseIgnored(Aside(p), block[1..]);
  }

  lemma FinishForgets(p: Reader)
    requires p.Valid()
    ensures FinishMapping(Aside(p)) == Aside(p)
    ensures FinishEntry(Aside(p)) == match FinishEntry(p) case Ok(q) => Ok(q.(inMappings := false, block := NoBlock)) case Err(e) => Err(e)
  {
    hide FinishBuilder, Strip, SpaceJoin;
  }

  lemma AsideSection(p: Reader)
    requires p.Valid()
    ensures Aside(p).section == p.section && Aside(p).current.Some? == p.current.Some?
  {
  }

  lemma ResumeForgets(p: Reader, raw: string)
    requires p.Valid() && Resumes(raw) && p.section == Some("ui_catalog") && p.current.Some?
    ensures ReadLine(Aside(p), raw) == ReadLine(p, raw)
  {
    hide Strip, After, Scalar, StartsWith, FinishMapping, FinishEntry;
    FinishForgets(p);
    AsideSection(p);
  }

  /** An unknown field of an entry, with prose of any wording below it, changes nothing:
      before a section, another entry, another field or the end of the file. */
  lemma ProseDoesNothing(before: seq<string>, block: seq<string>, after: seq<string>)
    requires ReadLines(START, before).Ok? && UnknownBlock(ReadLines(START, before).value, block)
    requires after == [] || Resumes(after[0])
    ensures Load(before + block + after) == Load(before + after)
  {
    hide Tokenize, ReadLine, UnknownBlock, Resumes, FinishEntry;
    var p := ReadLines(START, before).value;
    ReadLinesAppend(START, before, block);
    ReadLinesAppend(START, before + block, after);
    ReadLinesAppend(START, before, after);
    BlockIsAside(p, block);
    BlockInEntry(p, block);
    FinishForgets(p);
    if after != [] {
      ResumeForgets(p, after[0]);
    }
  }

  lemma BlockInEntry(p: Reader, block: seq<string>)
    requires UnknownBlock(p, block)
    ensures p.section == Some("ui_catalog") && p.current.Some?
  {
  }
}
