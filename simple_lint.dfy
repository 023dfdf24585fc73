/** The vendor-neutral linter (tools/policy_lint.py): `lint_file` parses one
    document and checks its required fields, its metadata keys, the shape of
    `approver_group` and that `settings` is an object. Reading the file is
    not modelled; the parser's outcome is the input. */
module SimpleLint {
  import opened Json
  import opened Policy

  const RequiredTop: set<string> := {"name", "platform", "metadata", "settings"}
  const RequiredMeta: set<string> := {"owner", "approver_group", "change_ticket_required"}

  /** What `json.loads` made of the file's text. */
  datatype Document = Parsed(value: JSON) | Unparseable(reason: string)

  /** `lint_file(p)` as a value; `data.keys()` and `meta.keys()` raise on
      anything but a dict. */
  function LintFile(doc: Document): LintResult
  {
    match doc
    case Unparseable(reason) => Reported([InvalidJson(reason)])
    case Parsed(data) =>
      if !data.JObj? then Raised(AttributeError("keys"))
      else
        var missing := RequiredTop - Keys(data.fields);
        if missing != {} then Reported([MissingTopLevel(missing)])
        else
          var meta := GetOr(data.fields, "metadata", EmptyObject);
          if !meta.JObj? then Raised(AttributeError("keys"))
          else
            var mm := RequiredMeta - Keys(meta.fields);
            var e1 := if mm != {} then [MissingMetadata(mm)] else [];
            var e2 := if !GetOr(meta.fields, "approver_group", JArr([])).JArr? then e1 + [ApproverGroupNotList] else e1;
            Reported(if !GetOr(data.fields, "settings", EmptyObject).JObj? then e2 + [SettingsNotObject] else e2)
  }

  /** The metadata dict of a parsed document, as `data.get("metadata", {})`
      reads it (empty when it is not a dict). */
  function MetaOf(data: JSON): Fields
    requires data.JObj?
  {
    var meta := GetOr(data.fields, "metadata", EmptyObject);
    if meta.JObj? then meta.fields else []
  }

  /** A present `approver_group` that is not a list; an absent one reads as `[]`. */
  predicate ApproverGroupBad(meta: Fields)
  {
    "approver_group" in Keys(meta) && !Get(meta, "approver_group").JArr?
  }

  /** A document that cannot be parsed gets exactly one error. */
  lemma UnparseableReported(reason: string)
    ensures LintFile(Unparseable(reason)) == Reported([InvalidJson(reason)])
  {
  }

  /** A parsed document makes `lint_file` raise exactly when it is not a
      dict, or has every required field and a `metadata` that is not a dict. */
  lemma RaisesExactlyWhen(data: JSON)
    ensures LintFile(Parsed(data)).Raised? <==> (!data.JObj? ||
      (RequiredTop <= Keys(data.fields) && !GetOr(data.fields, "metadata", EmptyObject).JObj?))
  {
    if data.JObj? && RequiredTop - Keys(data.fields) == {} {
      NoneMissing(RequiredTop, Keys(data.fields));
    }
  }

  /** Exactly the four fields name, platform, metadata and settings are
      required, `version` is not; a missing one gives one error naming all
      that are missing, and nothing else is checked. */
  lemma MissingTopLevelStops(data: JSON)
    requires data.JObj?
    ensures RequiredTop - Keys(data.fields) != {} ==>
      LintFile(Parsed(data)) == Reported([MissingTopLevel(RequiredTop - Keys(data.fields))])
    ensures RequiredTop - Keys(data.fields) == {} && LintFile(Parsed(data)).Reported? ==>
      forall x :: x in LintFile(Parsed(data)).errors ==> !x.MissingTopLevel?
  {
  }

  /** For a document with every required field each check runs once:
      missing metadata keys in one combined error, a present non-list
      `approver_group`, a `settings` that is not a dict; at most three
      errors. */
  lemma ChecksReported(data: JSON)
    requires data.JObj? && RequiredTop <= Keys(data.fields) && LintFile(Parsed(data)).Reported?
    ensures var errors := LintFile(Parsed(data)).errors;
      && |errors| <= 3
      && (forall f :: MissingMetadata(f) in errors <==> f == RequiredMeta - Keys(MetaOf(data)) && f != {})
      && (ApproverGroupNotList in errors <==> ApproverGroupBad(MetaOf(data)))
      && (SettingsNotObject in errors <==> !Get(data.fields, "settings").JObj?)
  {
    assert RequiredTop - Keys(data.fields) == {};
    assert "settings" in Keys(data.fields);
    assert "approver_group" !in Keys(MetaOf(data)) ==> GetOr(MetaOf(data), "approver_group", JArr([])) == JArr([]);
  }

  /** `lint_file(p)` after parsing: appends to a local list, returning early
      after the top-level check. */
  method LintDocument(doc: Document) returns (r: LintResult)
    ensures r == LintFile(doc)
  {
    if doc.Unparseable? {
      return Reported([InvalidJson(doc.reason)]);
    }
    var data := doc.value;
    var errors: seq<LintError> := [];
    if !data.JObj? {
      return Raised(AttributeError("keys"));
    }
    var missing := RequiredTop - Keys(data.fields);
    if missing != {} {
      errors := errors + [MissingTopLevel(missing)];
      return Reported(errors);
    }
    var meta := GetOr(data.fields, "metadata", EmptyObject);
    if !meta.JObj? {
      return Raised(AttributeError("keys"));
    }
    var mm := RequiredMeta - Keys(meta.fields);
    if mm != {} {
      errors := errors + [MissingMetadata(mm)];
    }
    if !GetOr(meta.fields, "approver_group", JArr([])).JArr? {
      errors := errors + [ApproverGroupNotList];
    }
    if !GetOr(data.fields, "settings", EmptyObject).JObj? {
      errors := errors + [SettingsNotObject];
    }
    return Reported(errors);
  }
}
