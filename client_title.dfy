/**
 * The new-item templates of the browser client and the title rewrite applied when one is
 * chosen (kanban/public/js/main.js): `normalizeTitleWithPrefix` and the fallback of
 * `applyItemTemplate` to the `task` template.
 */
module ClientTitle {
  import opened Wrappers
  import opened Text

  /** `KNOWN_TITLE_PREFIXES`, searched in this order. */
  const KnownTitlePrefixes: seq<string> := ["Bug:", "Feature:"]

  /** The `for (const p of KNOWN_TITLE_PREFIXES)` search from index `from`: the first prefix the text starts with. */
  function KnownPrefixFrom(t: string, from: nat): (r: Option<string>)
    requires from <= |KnownTitlePrefixes|
    ensures r.Some? ==> r.value in KnownTitlePrefixes && StartsWith(t, r.value)
    ensures r.None? <==> forall k :: from <= k < |KnownTitlePrefixes| ==> !StartsWith(t, KnownTitlePrefixes[k])
    decreases |KnownTitlePrefixes| - from
  {
    if from == |KnownTitlePrefixes| then None
    else if StartsWith(t, KnownTitlePrefixes[from]) then Some(KnownTitlePrefixes[from])
    else KnownPrefixFrom(t, from + 1)
  }

  function KnownPrefix(t: string): Option<string> {
    KnownPrefixFrom(t, 0)
  }

  /**
   * `normalizeTitleWithPrefix(title, prefix)`. Without a prefix a known prefix is stripped
   * with the whitespace after it; with one, the left-trimmed title gets the prefix, replacing
   * a different known prefix, unless it already starts with it.
   */
  function NormalizeTitleWithPrefix(title: string, prefix: string): string {
    if prefix == "" then
      match KnownPrefix(title)
      case Some(p) => TrimStart(title[|p|..])
      case None => title
    else
      var trimmed := TrimStart(title);
      if StartsWith(trimmed, prefix) then trimmed
      else match KnownPrefix(trimmed)
        case Some(p) => prefix + " " + TrimStart(trimmed[|p|..])
        case None => prefix + " " + trimmed
  }

  /** A string that does not start with whitespace is its own `trimStart`. */
  lemma TrimStartNoLead(s: string)
    requires s == [] || !IsWhitespace(s[0])
    ensures TrimStart(s) == s
  {
  }

  /** Switching back to the plain task: `Bug:` or `Feature:` goes, with the whitespace after it; other titles stay. */
  lemma EmptyPrefixStrips(title: string)
    ensures StartsWith(title, "Bug:") ==> NormalizeTitleWithPrefix(title, "") == TrimStart(title[4..])
    ensures StartsWith(title, "Feature:") ==> NormalizeTitleWithPrefix(title, "") == TrimStart(title[8..])
    ensures !StartsWith(title, "Bug:") && !StartsWith(title, "Feature:") ==> NormalizeTitleWithPrefix(title, "") == title
  {
    if StartsWith(title, "Feature:") {
      assert title[0] == 'F';
      assert !StartsWith(title, "Bug:");
    }
  }

  /** With a prefix the result always starts with it, and each of the three cases gives the promised title. */
  lemma PrefixApplied(title: string, prefix: string)
    requires prefix != ""
    ensures StartsWith(NormalizeTitleWithPrefix(title, prefix), prefix)
    ensures StartsWith(TrimStart(title), prefix) ==> NormalizeTitleWithPrefix(title, prefix) == TrimStart(title)
    ensures !StartsWith(TrimStart(title), prefix) && KnownPrefix(TrimStart(title)).Some? ==>
      var p := KnownPrefix(TrimStart(title)).value;
      NormalizeTitleWithPrefix(title, prefix) == prefix + " " + TrimStart(TrimStart(title)[|p|..])
    ensures !StartsWith(TrimStart(title), prefix) && KnownPrefix(TrimStart(title)).None? ==>
      NormalizeTitleWithPrefix(title, prefix) == prefix + " " + TrimStart(title)
  {
    var r := NormalizeTitleWithPrefix(title, prefix);
    if !StartsWith(TrimStart(title), prefix) {
      assert r[..|prefix|] == prefix;
    }
  }

  /** Choosing the same prefixed template again changes nothing, for any prefix that does not start with whitespace. */
  lemma NormalizeIdempotent(title: string, prefix: string)
    requires prefix != "" && !IsWhitespace(prefix[0])
    ensures NormalizeTitleWithPrefix(NormalizeTitleWithPrefix(title, prefix), prefix) == NormalizeTitleWithPrefix(title, prefix)
  {
    var r := NormalizeTitleWithPrefix(title, prefix);
    PrefixApplied(title, prefix);
    if StartsWith(TrimStart(title), prefix) {
      TrimStartNoLead(r);
    } else {
      assert r[0] == prefix[0];
      TrimStartNoLead(r);
    }
  }

  /** Adding a known prefix and choosing the plain `task` template again restores the left-trimmed title. */
  lemma PrefixRemovedAgain(title: string, p: string)
    requires p in KnownTitlePrefixes && KnownPrefix(TrimStart(title)).None?
    ensures NormalizeTitleWithPrefix(NormalizeTitleWithPrefix(title, p), "") == TrimStart(title)
  {
    var t := TrimStart(title);
    var r := p + " " + t;
    assert NormalizeTitleWithPrefix(title, p) == r;
    assert r[..|p|] == p;
    assert KnownPrefix(r) == Some(p) by {
      if p == "Feature:" {
        assert r[0] == 'F';
        assert !StartsWith(r, "Bug:");
      }
    }
    assert r[|p|..] == " " + t;
    assert TrimStart(" " + t) == t by {
      assert LeadingSpace(" " + t) == 1 + LeadingSpace(t) by {
        assert (" " + t)[1..] == t;
      }
      TrimStartNoLead(t);
    }
  }

  // ---------------------------------------------------------------------------
  // Templates
  // ---------------------------------------------------------------------------

  /** The fields of an entry of `ITEM_TEMPLATES` that the form takes over, besides the description text. */
  datatype Template = Template(id: string, name: string, titlePrefix: string, priority: string, tags: seq<string>)

  const TaskTemplate := Template("task", "Task", "", "medium", ["needs-triage"])
  const BugTemplate := Template("bug", "Bug Report", "Bug:", "high", ["bug"])
  const FeatureTemplate := Template("feature", "Feature Request", "Feature:", "medium", ["code/feature"])

  /** `ITEM_TEMPLATES[templateId] || ITEM_TEMPLATES.task`. */
  function TemplateFor(templateId: string): (t: Template)
    ensures templateId in {"task", "bug", "feature"} ==> t.id == templateId
    ensures templateId !in {"task", "bug", "feature"} ==> t == TaskTemplate
    ensures t.priority != "" && t.tags != []
  {
    if templateId == "bug" then BugTemplate
    else if templateId == "feature" then FeatureTemplate
    else TaskTemplate
  }

  /** The title `applyItemTemplate` leaves in the form. */
  function TemplateTitle(templateId: string, title: string): string {
    NormalizeTitleWithPrefix(title, TemplateFor(templateId).titlePrefix)
  }

  /** The prefixed templates start the title with their prefix, and choosing one twice is choosing it once. */
  lemma TemplateTitleStable(templateId: string, title: string)
    requires TemplateFor(templateId).titlePrefix != ""
    ensures StartsWith(TemplateTitle(templateId, title), TemplateFor(templateId).titlePrefix)
    ensures TemplateTitle(templateId, TemplateTitle(templateId, title)) == TemplateTitle(templateId, title)
  {
    var p := TemplateFor(templateId).titlePrefix;
    assert p == "Bug:" || p == "Feature:";
    PrefixApplied(title, p);
    NormalizeIdempotent(title, p);
  }
}
