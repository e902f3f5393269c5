/** The catalog loader as it runs: a mutable entry builder and a loop over the lines
    (portalsvc: catalog.py). */
module CatalogRun {
  import opened Results
  import opened Text
  import opened Indented
  import C = CatalogFile

  /** `_EntryBuilder`. */
  class EntryBuilder {
    const id: string
    var system: Option<string>
    var displayName: Option<string>
    var source: Option<string>
    var profileKey: Option<string>
    var keySeen: bool
    var mappings: seq<C.Mapping>

    function View(): C.Builder
      reads this
    {
      C.Builder(id, system, displayName, source, profileKey, keySeen, mappings)
    }

    constructor (id: string)
      ensures View() == C.Builder(id, None, None, None, None, false, [])
    {
      this.id := id;
      system, displayName, source, profileKey, keySeen, mappings := None, None, None, None, false, [];
    }

    method Finish() returns (r: Result<C.Entry, C.CatalogError>)
      ensures r == C.FinishBuilder(View())
    {
      var missing: seq<C.FieldName> := [];
      if system.None? {
        missing := missing + [C.SystemField];
      }
      if displayName.None? {
        missing := missing + [C.DisplayNameField];
      }
      if source.None? {
        missing := missing + [C.SourceField];
      }
      if missing != [] || !keySeen {
        if !keySeen {
          missing := missing + [C.ProfileKeyField];
        }
        assert missing == C.MissingOf(View());
        return Err(C.MissingFields(id, missing));
      }
      var groups: set<string> := {};
      var i := 0;
      while i < |mappings|
        invariant i <= |mappings|
        invariant forall g :: g in groups <==> exists k :: 0 <= k < i && mappings[k].group == g
      {
        groups := groups + {mappings[i].group};
        i := i + 1;
      }
      if C.READONLY_GROUP !in groups {
        return Err(C.UnmappedGroup(id, C.READONLY_GROUP));
      }
      if C.ADMIN_GROUP !in groups {
        return Err(C.UnmappedGroup(id, C.ADMIN_GROUP));
      }
      r := Ok(C.Entry(id, system.value, displayName.value, source.value, profileKey, mappings));
    }
  }

  /** What the loop of `load_ui_catalog` carries from line to line. */
  class Loader {
    var entries: seq<C.Entry>
    var section: Option<string>
    var current: EntryBuilder?
    var block: C.OpenBlock
    var inMappings: bool
    var group: Option<string>
    var folded: Option<seq<string>>

    ghost function View(): C.Reader
      reads this, current
    {
      C.Reader(entries, section, if current == null then None else Some(current.View()), block, inMappings, group, folded)
    }

    constructor ()
      ensures View() == C.START && current == null
    {
      entries, section, current, block, inMappings, group, folded := [], None, null, C.NoBlock, false, None, None;
    }

    method FinishMapping()
      requires View().Valid()
      modifies this, current
      ensures View() == C.FinishMapping(old(View())) && current == old(current)
    {
      if group.Some? && folded.Some? {
        current.mappings := current.mappings + [C.Mapping(group.value, Strip(C.SpaceJoin(folded.value)))];
      }
      group, folded := None, None;
    }

    method FinishEntry() returns (error: Option<C.CatalogError>)
      requires View().Valid()
      modifies this, current
      ensures match C.FinishEntry(old(View()))
              case Ok(q) => error.None? && View() == q && current == null
              case Err(e) => error == Some(e)
    {
      FinishMapping();
      if current != null {
        var entry := current.Finish();
        if entry.Err? {
          return Some(entry.error);
        }
        entries := entries + [entry.value];
      }
      current := null;
      error := None;
    }

    method ReadLine(raw: string) returns (error: Option<C.CatalogError>)
      requires View().Valid()
      modifies this, current
      ensures match C.ReadLine(old(View()), raw)
              case Ok(q) => error.None? && View() == q && (current == null || current == old(current) || fresh(current))
              case Err(e) => error == Some(e)
    {
      hide Tokenize, After, C.Scalar, C.ReadBody, C.FinishEntry;
      error := None;
      var token := Tokenize(raw);
      if token.None? {
        return;
      }
      var Token(indent, text) := token.value;
      if indent == 0 {
        error := FinishEntry();
        if error.Some? {
          return;
        }
        section := if EndsWithColon(text) then Some(text[..|text| - 1]) else None;
        block, inMappings := C.NoBlock, false;
      } else if section != Some("ui_catalog") {
      } else if folded.Some? && indent >= 12 {
        folded := Some(folded.value + [text]);
      } else if indent == 2 && StartsWith(text, "- ") {
        error := FinishEntry();
        if error.Some? {
          return;
        }
        var item := After(text, "- ");
        if !StartsWith(item, "id:") {
          return Some(C.NoId(text));
        }
        current := new EntryBuilder(C.Scalar(item, "id:"));
        block, inMappings := C.NoBlock, false;
      } else if current != null {
        ReadBody(Token(indent, text));
      }
    }

    method ReadBody(t: Token)
      requires View().Valid() && current != null
      modifies this, current
      ensures View() == C.ReadBody(old(View()), t) && current == old(current)
    {
      var Token(indent, text) := t;
      if indent == 4 {
        ReadField(text);
      } else if indent == 6 && block == C.EndpointBlock {
        ReadEndpoint(text);
      } else if indent == 6 && block == C.SsoBlock {
        FinishMapping();
        inMappings := text == "mappings:";
      } else if indent == 8 && block == C.SsoBlock && inMappings && StartsWith(text, "- plane_group:") {
        FinishMapping();
        group := Some(C.Scalar(text, "- plane_group:"));
      } else if indent == 10 && group.Some? && StartsWith(text, "native_role:") {
        var value := After(text, "native_role:");
        folded := Some(if C.IsFoldMark(value) then [] else [C.Unquote(value)]);
      }
    }

    method ReadField(text: string)
      requires View().Valid() && current != null
      modifies this, current
      ensures View() == C.ReadField(old(View()), text) && current == old(current)
    {
      FinishMapping();
      inMappings, block := false, C.NoBlock;
      if StartsWith(text, "system:") {
        current.system := Some(C.Scalar(text, "system:"));
      } else if StartsWith(text, "display_name:") {
        current.displayName := Some(C.Scalar(text, "display_name:"));
      } else if text == "endpoint:" {
        block := C.EndpointBlock;
      } else if text == "sso_role_mapping:" {
        block := C.SsoBlock;
      }
    }

    method ReadEndpoint(text: string)
      requires View().Valid() && current != null
      modifies this, current
      ensures View() == C.ReadEndpoint(old(View()), text) && current == old(current)
    {
      if StartsWith(text, "source:") {
        current.source := Some(C.Scalar(text, "source:"));
      } else if StartsWith(text, "profile_key:") {
        var value := C.Scalar(text, "profile_key:");
        current.keySeen := true;
        current.profileKey := if C.IsNull(value) then None else Some(value);
      }
    }
  }

  /** `load_ui_catalog`. */
  method LoadUiCatalog(text: string) returns (r: Result<seq<C.Entry>, C.CatalogError>)
    ensures r == C.LoadText(text)
  {
    hide C.ReadLine, C.FinishEntry, SplitLines;
    var lines := SplitLines(text);
    var loader := new Loader();
    var i := 0;
    while i < |lines|
      invariant i <= |lines|
      invariant fresh(loader) && (loader.current != null ==> fresh(loader.current))
      invariant loader.View().Valid() && C.ReadLines(loader.View(), lines[i..]) == C.ReadLines(C.START, lines)
    {
      assert lines[i..][1..] == lines[i + 1..];
      var error := loader.ReadLine(lines[i]);
      if error.Some? {
        return Err(error.value);
      }
      i := i + 1;
    }
    var error := loader.FinishEntry();
    if error.Some? {
      return Err(error.value);
    }
    if loader.entries == [] {
      return Err(C.NoEntries);
    }
    r := Ok(loader.entries);
  }
}
