/** The Telegram section of the configuration document: how a loaded
    document is projected into the editable form fields, and how saving
    merges the form back into the section while keeping every key the form
    does not edit. */
module TelegramConfig {
  import opened Wrappers
  import opened Json
  import opened Text

  /** The form fields the store keeps for the Telegram section. */
  datatype TelegramForm = TelegramForm(
    token: string,
    requireMention: bool,
    allowFrom: string,
    proxy: string,
    webhookUrl: string,
    webhookSecret: string,
    webhookPath: string)

  /** The fields before any load: empty texts, mention required. */
  const DefaultForm := TelegramForm("", true, "", "", "", "", "")

  /** The keys of the section the form edits; saving leaves all others alone. */
  const EditableKeys: set<string> :=
    {"botToken", "requireMention", "allowFrom", "proxy", "webhookUrl", "webhookSecret", "webhookPath"}

  /** `config?["telegram"]?.dictionaryValue`: the section, when it is an object. */
  function TelegramSection(config: Option<Object>): (r: Option<Object>)
    ensures r.Some? <==> config.Some? && "telegram" in config.value && config.value["telegram"].JObject?
    ensures r.Some? ==> r.value == config.value["telegram"].fields
  {
    if config.Some? && "telegram" in config.value && config.value["telegram"].JObject?
    then Some(config.value["telegram"].fields)
    else None
  }

  /** `configRoot["telegram"] as? [String: Any] ?? [:]`: the section saving starts from. */
  function SectionToEdit(root: Object): (r: Object)
    ensures "telegram" in root && root["telegram"].JObject? ==> r == root["telegram"].fields
    ensures !("telegram" in root && root["telegram"].JObject?) ==> r == map[]
  {
    if "telegram" in root && root["telegram"].JObject? then root["telegram"].fields else map[]
  }

  function Entry(section: Option<Object>, key: string): Option<Value> {
    if section.Some? && key in section.value then Some(section.value[key]) else None
  }

  /** `section?[key]?.stringValue ?? ""`: the stored string as it is, even
      untrimmed, and "" when the key is absent or holds no string. */
  function TextField(section: Option<Object>, key: string): (r: string)
    ensures r != "" ==> Entry(section, key) == Some(JString(r))
    ensures Entry(section, key).Some? && Entry(section, key).value.JString? ==> r == Entry(section, key).value.s
    ensures !(Entry(section, key).Some? && Entry(section, key).value.JString?) ==> r == ""
  {
    match Entry(section, key)
    case Some(JString(s)) => s
    case _ => ""
  }

  /** `section?[key]?.boolValue ?? true`. */
  function FlagField(section: Option<Object>, key: string): (r: bool)
    ensures !r <==> Entry(section, key) == Some(JBool(false))
  {
    match Entry(section, key)
    case Some(JBool(b)) => b
    case _ => true
  }

  /** The allow-list entries the form shows: a string as it is, an integer in
      decimal, any other entry dropped (the `compactMap` of the load). */
  function AllowFromEntries(items: seq<Value>): (r: seq<string>)
    ensures |r| <= |items|
    ensures (forall i :: 0 <= i < |items| ==> items[i].JString? || items[i].JInt?) ==> |r| == |items|
  {
    if items == [] then [] else EntryText(items[0]) + AllowFromEntries(items[1..])
  }

  /** One allow-list entry as the form shows it, or nothing. */
  function EntryText(v: Value): (r: seq<string>)
    ensures |r| <= 1
    ensures r != [] <==> v.JString? || v.JInt?
    ensures v.JString? ==> r == [v.s]
    ensures v.JInt? ==> r == [IntToString(v.i)]
  {
    match v
    case JString(s) => [s]
    case JInt(i) => [IntToString(i)]
    case _ => []
  }

  /** The load keeps the entries' order: the entries of a concatenation are
      the entries of each part, one after the other. */
  lemma {:induction false} AllowFromEntriesAppend(a: seq<Value>, b: seq<Value>)
    ensures AllowFromEntries(a + b) == AllowFromEntries(a) + AllowFromEntries(b)
  {
    if a == [] {
      assert a + b == b;
    } else {
      var ab := a + b;
      assert ab[0] == a[0] && ab[1..] == a[1..] + b;
      AllowFromEntriesAppend(a[1..], b);
      var head, tail, rest := EntryText(a[0]), AllowFromEntries(a[1..]), AllowFromEntries(b);
      assert AllowFromEntries(ab) == head + (tail + rest);
      assert head + (tail + rest) == (head + tail) + rest;
    }
  }

  /** An array of strings only loses nothing. */
  lemma {:induction false} AllowFromEntriesOfStrings(xs: seq<string>)
    ensures AllowFromEntries(StringArray(xs).items) == xs
  {
    if xs != [] {
      var items := StringArray(xs).items;
      assert items[1..] == StringArray(xs[1..]).items;
      AllowFromEntriesOfStrings(xs[1..]);
    }
  }

  /** The allow-list text field: the entries joined with ", ", or "" when
      the key is absent or not an array. */
  function AllowFromText(section: Option<Object>): (r: string)
    ensures !(Entry(section, "allowFrom").Some? && Entry(section, "allowFrom").value.JArray?) ==> r == ""
    ensures Entry(section, "allowFrom").Some? && Entry(section, "allowFrom").value.JArray? ==>
      r == Join(AllowFromEntries(Entry(section, "allowFrom").value.items), ", ")
  {
    match Entry(section, "allowFrom")
    case Some(JArray(items)) => Join(AllowFromEntries(items), ", ")
    case _ => ""
  }

  /** The fields a successful load puts in the form. */
  function ProjectForm(config: Option<Object>): (f: TelegramForm)
    ensures TelegramSection(config).None? ==> f == DefaultForm
  {
    var section := TelegramSection(config);
    TelegramForm(
      TextField(section, "botToken"),
      FlagField(section, "requireMention"),
      AllowFromText(section),
      TextField(section, "proxy"),
      TextField(section, "webhookUrl"),
      TextField(section, "webhookSecret"),
      TextField(section, "webhookPath"))
  }

  /** A load with no Telegram section gives the default form. Otherwise
      each field shows its key: a text field the stored string as it is
      (see `TextField`), the allow-list its entries joined (see
      `AllowFromText`), and the mention flag is cleared only by a stored
      `false`. */
  lemma ProjectFormSpec(config: Option<Object>)
    ensures var f := ProjectForm(config);
      && (TelegramSection(config).None? ==> f == DefaultForm)
      && (!f.requireMention <==> Entry(TelegramSection(config), "requireMention") == Some(JBool(false)))
      && (f.token != "" ==> Entry(TelegramSection(config), "botToken") == Some(JString(f.token)))
      && f.token == TextField(TelegramSection(config), "botToken")
      && f.allowFrom == AllowFromText(TelegramSection(config))
      && f.proxy == TextField(TelegramSection(config), "proxy")
      && f.webhookUrl == TextField(TelegramSection(config), "webhookUrl")
      && f.webhookSecret == TextField(TelegramSection(config), "webhookSecret")
      && f.webhookPath == TextField(TelegramSection(config), "webhookPath")
  {
  }

  /** What an allow-list entry looks like after saving. */
  predicate AllowEntry(e: string) {
    e != "" && IsTrimmed(e) && ',' !in e
  }

  /** The save's allow-list: split on commas (empty pieces omitted), each
      piece trimmed, empty results dropped. */
  function ParseAllowFrom(text: string): (r: seq<string>)
    ensures |r| <= |Fields(text)|
  {
    NonEmpty(Trims(NonEmpty(Fields(text))))
  }

  /** Every entry the save writes is non-empty, trimmed and comma-free. */
  lemma ParseAllowFromEntries(text: string)
    ensures forall i :: 0 <= i < |ParseAllowFrom(text)| ==> AllowEntry(ParseAllowFrom(text)[i])
  {
    var fields := Fields(text);
    var pieces := NonEmpty(fields);
    NonEmptyKeeps(fields, s => ',' !in s);
    var trimmed := Trims(pieces);
    assert forall j :: 0 <= j < |trimmed| ==> IsTrimmed(trimmed[j]) && ',' !in trimmed[j];
    NonEmptyKeeps(trimmed, s => IsTrimmed(s) && ',' !in s);
  }

  /** Commas split the allow-list and nothing else: the entries of
      `a + "," + b` are the entries of `a` followed by those of `b`, in
      order and with their repetitions. */
  lemma ParseAllowFromComma(a: string, b: string)
    ensures ParseAllowFrom(a + "," + b) == ParseAllowFrom(a) + ParseAllowFrom(b)
  {
    var fa, fb := Fields(a), Fields(b);
    FieldsComma(a, b);
    NonEmptyAppend(fa, fb);
    TrimsAppend(NonEmpty(fa), NonEmpty(fb));
    NonEmptyAppend(Trims(NonEmpty(fa)), Trims(NonEmpty(fb)));
  }

  /** A comma-free piece gives one entry, the piece trimmed, unless it is
      blank, when it gives none. */
  lemma ParseAllowFromPiece(x: string)
    requires ',' !in x
    ensures ParseAllowFrom(x) == if AllWhitespace(x) then [] else [Trim(x)]
  {
    FieldsOfCommaFree(x);
    NonEmptyTrimsNonEmpty([x]);
    assert [x] + [] == [x];
    TrimsCons(x, []);
    assert [Trim(x)] + [] == [Trim(x)];
    NonEmptyCons(Trim(x), []);
  }

  lemma NonEmptyCons(x: string, ys: seq<string>)
    ensures NonEmpty([x] + ys) == (if x == "" then [] else [x]) + NonEmpty(ys)
  {
    assert ([x] + ys)[1..] == ys;
  }

  lemma TrimsCons(x: string, ys: seq<string>)
    ensures Trims([x] + ys) == [Trim(x)] + Trims(ys)
  {
    assert ([x] + ys)[1..] == ys;
  }

  /** A space in front of the text only lands in the first piece, where
      trimming removes it. */
  lemma TrimsFieldsAfterSpace(rest: string)
    ensures Trims(Fields([' '] + rest)) == Trims(Fields(rest))
  {
    var f := Fields(rest);
    var g := Fields([' '] + rest);
    FieldsAfterChar(' ', rest);
    assert g[0] == [' '] + f[0];
    TrimLeadingWhitespace(' ', f[0]);
    forall i | 0 <= i < |f|
      ensures Trims(g)[i] == Trims(f)[i]
    {
      if i > 0 {
        assert g[i] == f[i];
      }
    }
  }

  /** A comma-free head followed by ", " becomes one trimmed piece ahead
      of the pieces of the rest. */
  lemma TrimsFieldsAfterHead(x: string, rest: string)
    requires ',' !in x
    ensures Trims(Fields(x + ", " + rest)) == [Trim(x)] + Trims(Fields(rest))
  {
    assert x + ", " + rest == x + "," + ([' '] + rest);
    FieldsAfterHead(x, [' '] + rest);
    TrimsCons(x, Fields([' '] + rest));
    TrimsFieldsAfterSpace(rest);
  }

  /** A single entry is read back as itself. */
  lemma CleanedSingle(x: string)
    requires AllowEntry(x)
    ensures NonEmpty(Trims(Fields(x))) == [x]
  {
    FieldsOfCommaFree(x);
    TrimOfTrimmed(x);
    TrimsCons(x, []);
    NonEmptyCons(x, []);
  }

  /** An entry followed by ", " reads back as that entry ahead of whatever
      the rest reads back as. */
  lemma CleanedCons(x: string, rest: string)
    requires AllowEntry(x)
    ensures NonEmpty(Trims(Fields(x + ", " + rest))) == [x] + NonEmpty(Trims(Fields(rest)))
  {
    TrimsFieldsAfterHead(x, rest);
    TrimOfTrimmed(x);
    NonEmptyCons(x, Trims(Fields(rest)));
  }

  /** Splitting, trimming and dropping empties undoes joining with ", ". */
  lemma {:induction false} CleanedJoin(xs: seq<string>)
    requires forall i :: 0 <= i < |xs| ==> AllowEntry(xs[i])
    ensures NonEmpty(Trims(Fields(Join(xs, ", ")))) == xs
  {
    if |xs| == 0 {
      TrimsCons("", []);
      NonEmptyCons("", []);
    } else if |xs| == 1 {
      CleanedSingle(xs[0]);
    } else {
      CleanedJoin(xs[1..]);
      assert Join(xs, ", ") == xs[0] + ", " + Join(xs[1..], ", ");
      CleanedCons(xs[0], Join(xs[1..], ", "));
      assert [xs[0]] + xs[1..] == xs;
    }
  }

  /** Saving the allow-list the load displayed gives back the same entries,
      for entries that are non-empty, trimmed and free of commas. */
  lemma ParseJoin(xs: seq<string>)
    requires forall i :: 0 <= i < |xs| ==> AllowEntry(xs[i])
    ensures ParseAllowFrom(Join(xs, ", ")) == xs
  {
    NonEmptyTrimsNonEmpty(Fields(Join(xs, ", ")));
    CleanedJoin(xs);
  }

  /** `[String]` stored under a key: a JSON array of strings. */
  function StringArray(xs: seq<string>): (v: Value)
    ensures v.JArray? && |v.items| == |xs|
    ensures forall i :: 0 <= i < |xs| ==> v.items[i] == JString(xs[i])
  {
    JArray(seq(|xs|, i requires 0 <= i < |xs| => JString(xs[i])))
  }

  /** What saving stores for a text field: its trimmed value, or nothing
      (the key is removed) when that is empty. */
  function TextEdit(text: string): (r: Option<Value>)
    ensures r.None? <==> AllWhitespace(text)
    ensures r.Some? ==> r.value == JString(Trim(text)) && Trim(text) != ""
  {
    var t := Trim(text);
    if t == "" then None else Some(JString(t))
  }

  /** What saving stores for the allow-list: the parsed entries as an array
      of strings, or nothing when there are none. */
  function AllowFromEdit(text: string): (r: Option<Value>)
    ensures r.None? <==> ParseAllowFrom(text) == []
    ensures r.Some? ==> r.value == StringArray(ParseAllowFrom(text))
  {
    var entries := ParseAllowFrom(text);
    if entries == [] then None else Some(StringArray(entries))
  }

  /** For each editable key, the value saving stores there, or None to
      remove the key. */
  datatype SectionEdits = SectionEdits(
    botToken: Option<Value>,
    requireMention: Option<Value>,
    allowFrom: Option<Value>,
    proxy: Option<Value>,
    webhookUrl: Option<Value>,
    webhookSecret: Option<Value>,
    webhookPath: Option<Value>)
  {
    /** The edit for `key`; only the keys of `EditableKeys` are asked for. */
    function For(key: string): Option<Value>
    {
      if key == "botToken" then botToken
      else if key == "requireMention" then requireMention
      else if key == "allowFrom" then allowFrom
      else if key == "proxy" then proxy
      else if key == "webhookUrl" then webhookUrl
      else if key == "webhookSecret" then webhookSecret
      else webhookPath
    }
  }

  /** The edits a form asks for: every text field trimmed (blank removes the
      key), the flag always written, the allow-list parsed. */
  function EditsOf(form: TelegramForm): (e: SectionEdits)
    ensures e.requireMention == Some(JBool(form.requireMention))
  {
    SectionEdits(
      TextEdit(form.token),
      Some(JBool(form.requireMention)),
      AllowFromEdit(form.allowFrom),
      TextEdit(form.proxy),
      TextEdit(form.webhookUrl),
      TextEdit(form.webhookSecret),
      TextEdit(form.webhookPath))
  }

  /** The section after saving, described key by key: an editable key holds
      its edit or is absent, every other key is as it was. */
  function Merged(section: Object, edits: SectionEdits): (r: Object)
    ensures forall k :: k !in EditableKeys ==> (k in r <==> k in section)
    ensures forall k :: k !in EditableKeys && k in section ==> r[k] == section[k]
    ensures forall k :: k in EditableKeys ==> (k in r <==> edits.For(k).Some?)
    ensures forall k :: k in EditableKeys && k in r ==> r[k] == edits.For(k).value
  {
    map k | k in section.Keys + EditableKeys && (k in EditableKeys ==> edits.For(k).Some?) ::
      if k in EditableKeys then edits.For(k).value else section[k]
  }

  /** The save's rule for each field of the form, as the merged section
      shows it. */
  lemma MergedFields(section: Object, form: TelegramForm)
    ensures var r := Merged(section, EditsOf(form));
      && "requireMention" in r && r["requireMention"] == JBool(form.requireMention)
      && ("botToken" in r <==> !AllWhitespace(form.token))
      && ("botToken" in r ==> r["botToken"] == JString(Trim(form.token)))
      && ("allowFrom" in r <==> ParseAllowFrom(form.allowFrom) != [])
      && ("allowFrom" in r ==> r["allowFrom"] == StringArray(ParseAllowFrom(form.allowFrom)))
      && ("proxy" in r <==> !AllWhitespace(form.proxy))
      && ("proxy" in r ==> r["proxy"] == JString(Trim(form.proxy)))
      && ("webhookUrl" in r <==> !AllWhitespace(form.webhookUrl))
      && ("webhookUrl" in r ==> r["webhookUrl"] == JString(Trim(form.webhookUrl)))
      && ("webhookSecret" in r <==> !AllWhitespace(form.webhookSecret))
      && ("webhookSecret" in r ==> r["webhookSecret"] == JString(Trim(form.webhookSecret)))
      && ("webhookPath" in r <==> !AllWhitespace(form.webhookPath))
      && ("webhookPath" in r ==> r["webhookPath"] == JString(Trim(form.webhookPath)))
  {
    assert "botToken" in EditableKeys && "requireMention" in EditableKeys && "allowFrom" in EditableKeys;
    assert "proxy" in EditableKeys && "webhookUrl" in EditableKeys;
    assert "webhookSecret" in EditableKeys && "webhookPath" in EditableKeys;
  }

  /** One step of the save: set `key` to `v`, or remove it when `v` is None. */
  function SetOrRemove(m: Object, key: string, v: Option<Value>): (r: Object)
    ensures key in r <==> v.Some?
    ensures v.Some? ==> r[key] == v.value
    ensures forall k :: k != key ==> (k in r <==> k in m)
    ensures forall k :: k != key && k in m ==> r[k] == m[k]
  {
    if v.Some? then m[key := v.value] else m - {key}
  }

  /** The edits for `keys` applied one after another, in order. */
  function EditsApplied(section: Object, edits: SectionEdits, keys: seq<string>): Object
    requires forall i :: 0 <= i < |keys| ==> keys[i] in EditableKeys
  {
    if keys == [] then section
    else
      var last := keys[|keys| - 1];
      SetOrRemove(EditsApplied(section, edits, keys[..|keys| - 1]), last, edits.For(last))
  }

  /** After applying the edits for `keys`, a key among them holds its edit
      and any other key is untouched, whatever the order of the steps. */
  lemma {:induction false} EditsAppliedAt(section: Object, edits: SectionEdits, keys: seq<string>, k: string)
    requires forall i :: 0 <= i < |keys| ==> keys[i] in EditableKeys
    ensures var r := EditsApplied(section, edits, keys);
      && (k in keys ==> (k in r <==> edits.For(k).Some?) && (k in r ==> r[k] == edits.For(k).value))
      && (k !in keys ==> (k in r <==> k in section) && (k in r ==> r[k] == section[k]))
  {
    if keys != [] {
      var init := keys[..|keys| - 1];
      EditsAppliedAt(section, edits, init, k);
      assert keys == init + [keys[|keys| - 1]];
    }
  }

  lemma EditsAppliedSnoc(section: Object, edits: SectionEdits, keys: seq<string>, key: string)
    requires forall i :: 0 <= i < |keys| ==> keys[i] in EditableKeys
    requires key in EditableKeys
    ensures EditsApplied(section, edits, keys + [key]) ==
      SetOrRemove(EditsApplied(section, edits, keys), key, edits.For(key))
  {
    assert (keys + [key])[..|keys|] == keys;
  }

  /** The editable keys in the order the save visits them. */
  const SaveOrder: seq<string> :=
    ["botToken", "requireMention", "allowFrom", "proxy", "webhookUrl", "webhookSecret", "webhookPath"]

  /** Applying every edit in the save's order gives the merged section. */
  lemma SaveOrderMerges(section: Object, edits: SectionEdits)
    ensures EditsApplied(section, edits, SaveOrder) == Merged(section, edits)
  {
    var r := EditsApplied(section, edits, SaveOrder);
    var merged := Merged(section, edits);
    assert forall k :: k in SaveOrder <==> k in EditableKeys;
    forall k
      ensures (k in r <==> k in merged) && (k in r ==> r[k] == merged[k])
    {
      EditsAppliedAt(section, edits, SaveOrder, k);
    }
    assert r.Keys == merged.Keys;
  }

  /** The save's edits, one per key, as the form asks for them. */
  lemma EditsOfFor(form: TelegramForm)
    ensures EditsOf(form).For("botToken") == TextEdit(form.token)
    ensures EditsOf(form).For("requireMention") == Some(JBool(form.requireMention))
    ensures EditsOf(form).For("allowFrom") == AllowFromEdit(form.allowFrom)
    ensures EditsOf(form).For("proxy") == TextEdit(form.proxy)
    ensures EditsOf(form).For("webhookUrl") == TextEdit(form.webhookUrl)
    ensures EditsOf(form).For("webhookSecret") == TextEdit(form.webhookSecret)
    ensures EditsOf(form).For("webhookPath") == TextEdit(form.webhookPath)
  {
    var e := EditsOf(form);
    assert e.For("botToken") == e.botToken;
    assert e.For("requireMention") == e.requireMention;
    assert e.For("allowFrom") == e.allowFrom;
    assert e.For("proxy") == e.proxy;
    assert e.For("webhookUrl") == e.webhookUrl;
    assert e.For("webhookSecret") == e.webhookSecret;
    assert e.For("webhookPath") == e.webhookPath;
  }

  /** The seven steps of the save, written out in order, give the merged
      section. */
  lemma SaveSteps(section: Object, edits: SectionEdits)
    ensures
      var s1 := SetOrRemove(section, "botToken", edits.For("botToken"));
      var s2 := SetOrRemove(s1, "requireMention", edits.For("requireMention"));
      var s3 := SetOrRemove(s2, "allowFrom", edits.For("allowFrom"));
      var s4 := SetOrRemove(s3, "proxy", edits.For("proxy"));
      var s5 := SetOrRemove(s4, "webhookUrl", edits.For("webhookUrl"));
      var s6 := SetOrRemove(s5, "webhookSecret", edits.For("webhookSecret"));
      SetOrRemove(s6, "webhookPath", edits.For("webhookPath")) == Merged(section, edits)
  {
    assert SaveOrder[..1] == ["botToken"];
    EditsAppliedSnoc(section, edits, [], "botToken");
    assert SaveOrder[..2] == SaveOrder[..1] + ["requireMention"];
    EditsAppliedSnoc(section, edits, SaveOrder[..1], "requireMention");
    assert SaveOrder[..3] == SaveOrder[..2] + ["allowFrom"];
    EditsAppliedSnoc(section, edits, SaveOrder[..2], "allowFrom");
    assert SaveOrder[..4] == SaveOrder[..3] + ["proxy"];
    EditsAppliedSnoc(section, edits, SaveOrder[..3], "proxy");
    assert SaveOrder[..5] == SaveOrder[..4] + ["webhookUrl"];
    EditsAppliedSnoc(section, edits, SaveOrder[..4], "webhookUrl");
    assert SaveOrder[..6] == SaveOrder[..5] + ["webhookSecret"];
    EditsAppliedSnoc(section, edits, SaveOrder[..5], "webhookSecret");
    assert SaveOrder == SaveOrder[..6] + ["webhookPath"];
    EditsAppliedSnoc(section, edits, SaveOrder[..6], "webhookPath");
    SaveOrderMerges(section, edits);
  }

  /** One text field of the save: the trimmed text under `key`, or the key
      removed when the trimmed text is empty. */
  method StoreTrimmed(telegram: Object, key: string, text: string) returns (r: Object)
    ensures r == SetOrRemove(telegram, key, TextEdit(text))
  {
    var trimmed := Trim(text);
    if trimmed == "" {
      r := telegram - {key};
    } else {
      r := telegram[key := JString(trimmed)];
    }
  }

  /** The save's local `telegram` dictionary, updated one key at a time in
      the order the save visits them. */
  method ApplyTelegramEdits(section: Object, form: TelegramForm) returns (telegram: Object)
    ensures telegram == Merged(section, EditsOf(form))
  {
    telegram := StoreTrimmed(section, "botToken", form.token);
    if form.requireMention {
      telegram := telegram["requireMention" := JBool(true)];
    } else {
      telegram := telegram["requireMention" := JBool(false)];
    }
    var allow := ParseAllowFrom(form.allowFrom);
    if allow == [] {
      telegram := telegram - {"allowFrom"};
    } else {
      telegram := telegram["allowFrom" := StringArray(allow)];
    }
    telegram := StoreTrimmed(telegram, "proxy", form.proxy);
    telegram := StoreTrimmed(telegram, "webhookUrl", form.webhookUrl);
    telegram := StoreTrimmed(telegram, "webhookSecret", form.webhookSecret);
    telegram := StoreTrimmed(telegram, "webhookPath", form.webhookPath);
    EditsOfFor(form);
    SaveSteps(section, EditsOf(form));
  }

  /** The root after saving: the merged section under "telegram", every
      other section as it was. The section is never empty, since it always
      holds `requireMention`, so it is never removed from the root. */
  function MergedRoot(root: Object, form: TelegramForm): (r: Object)
    ensures "telegram" in r && r["telegram"].JObject?
    ensures r["telegram"].fields == Merged(SectionToEdit(root), EditsOf(form))
    ensures "requireMention" in r["telegram"].fields
    ensures forall k :: k != "telegram" ==> (k in r <==> k in root)
    ensures forall k :: k != "telegram" && k in root ==> r[k] == root[k]
  {
    assert "requireMention" in EditableKeys;
    root["telegram" := JObject(Merged(SectionToEdit(root), EditsOf(form)))]
  }

  /** The root after the save's merge. The save removes the section when the
      merged section is empty, which cannot happen. */
  function SavedRoot(root: Object, form: TelegramForm): (r: Object)
    ensures r == MergedRoot(root, form)
  {
    var telegram := Merged(SectionToEdit(root), EditsOf(form));
    MergedRootNonEmpty(root, form);
    if |telegram| == 0 then root - {"telegram"} else root["telegram" := JObject(telegram)]
  }

  lemma MergedRootNonEmpty(root: Object, form: TelegramForm)
    ensures |Merged(SectionToEdit(root), EditsOf(form))| != 0
  {
    assert "requireMention" in EditableKeys;
    assert "requireMention" in Merged(SectionToEdit(root), EditsOf(form));
  }

  /** The merge step of `saveTelegramConfig()` on the root: the section
      assembled key by key, then stored under "telegram", or removed when it
      came out empty. */
  method MergeIntoRoot(root: Object, form: TelegramForm) returns (r: Object)
    ensures r == SavedRoot(root, form)
  {
    var telegram := ApplyTelegramEdits(SectionToEdit(root), form);
    if |telegram| == 0 {
      r := root - {"telegram"};
    } else {
      r := root["telegram" := JObject(telegram)];
    }
  }

  /** The form after trimming every text field and re-rendering the
      allow-list from its parsed entries. */
  function Normalized(form: TelegramForm): TelegramForm {
    TelegramForm(
      Trim(form.token),
      form.requireMention,
      Join(ParseAllowFrom(form.allowFrom), ", "),
      Trim(form.proxy),
      Trim(form.webhookUrl),
      Trim(form.webhookSecret),
      Trim(form.webhookPath))
  }

  /** A text field the save wrote loads back as the trimmed text. */
  lemma SavedTextLoads(section: Object, edits: SectionEdits, key: string, text: string)
    requires key in EditableKeys && edits.For(key) == TextEdit(text)
    ensures TextField(Some(Merged(section, edits)), key) == Trim(text)
  {
    var merged := Merged(section, edits);
    var t := Trim(text);
    if t == "" {
      assert key !in merged;
      assert Entry(Some(merged), key).None?;
    } else {
      assert merged[key] == JString(t);
      assert Entry(Some(merged), key) == Some(JString(t));
    }
  }

  /** The flag the save wrote loads back unchanged. */
  lemma SavedFlagLoads(section: Object, edits: SectionEdits, flag: bool)
    requires edits.For("requireMention") == Some(JBool(flag))
    ensures FlagField(Some(Merged(section, edits)), "requireMention") == flag
  {
    assert "requireMention" in EditableKeys;
  }

  /** The allow-list the save wrote loads back as its entries joined with ", ". */
  lemma SavedAllowFromLoads(section: Object, edits: SectionEdits, text: string)
    requires edits.For("allowFrom") == AllowFromEdit(text)
    ensures AllowFromText(Some(Merged(section, edits))) == Join(ParseAllowFrom(text), ", ")
  {
    assert "allowFrom" in EditableKeys;
    var entries := ParseAllowFrom(text);
    if entries != [] {
      AllowFromEntriesOfStrings(entries);
    }
  }

  /** Loading what was just saved shows the normalised form. */
  lemma SaveThenLoad(root: Object, form: TelegramForm)
    ensures ProjectForm(Some(MergedRoot(root, form))) == Normalized(form)
  {
    var section := SectionToEdit(root);
    var edits := EditsOf(form);
    assert TelegramSection(Some(MergedRoot(root, form))) == Some(Merged(section, edits));
    EditsOfFor(form);
    SavedTextLoads(section, edits, "botToken", form.token);
    SavedFlagLoads(section, edits, form.requireMention);
    SavedAllowFromLoads(section, edits, form.allowFrom);
    SavedTextLoads(section, edits, "proxy", form.proxy);
    SavedTextLoads(section, edits, "webhookUrl", form.webhookUrl);
    SavedTextLoads(section, edits, "webhookSecret", form.webhookSecret);
    SavedTextLoads(section, edits, "webhookPath", form.webhookPath);
  }

  /** Normalising twice is normalising once, so a second save of an
      unchanged form writes the same section. */
  lemma NormalizedIdempotent(form: TelegramForm)
    ensures Normalized(Normalized(form)) == Normalized(form)
  {
    TrimIdempotent(form.token);
    TrimIdempotent(form.proxy);
    TrimIdempotent(form.webhookUrl);
    TrimIdempotent(form.webhookSecret);
    TrimIdempotent(form.webhookPath);
    ParseAllowFromEntries(form.allowFrom);
    ParseJoin(ParseAllowFrom(form.allowFrom));
  }

  /** Saving the same form twice writes the same section as saving it once. */
  lemma MergeIdempotent(section: Object, edits: SectionEdits)
    ensures Merged(Merged(section, edits), edits) == Merged(section, edits)
  {
    var once := Merged(section, edits);
    var twice := Merged(once, edits);
    assert twice.Keys == once.Keys;
  }

  /** A saved field is absent, never an empty placeholder. */
  predicate CanonicalText(section: Object, key: string) {
    key in section ==> section[key].JString? && section[key].s != "" && IsTrimmed(section[key].s)
  }

  /** A section exactly as the save writes it. */
  predicate CanonicalSection(section: Object) {
    && CanonicalText(section, "botToken")
    && CanonicalText(section, "proxy")
    && CanonicalText(section, "webhookUrl")
    && CanonicalText(section, "webhookSecret")
    && CanonicalText(section, "webhookPath")
    && "requireMention" in section && section["requireMention"].JBool?
    && ("allowFrom" in section ==>
          && section["allowFrom"].JArray?
          && section["allowFrom"].items != []
          && forall i :: 0 <= i < |section["allowFrom"].items| ==>
               section["allowFrom"].items[i].JString? && AllowEntry(section["allowFrom"].items[i].s))
  }

  lemma TextEditOfLoaded(section: Object, key: string)
    requires CanonicalText(section, key)
    ensures TextEdit(TextField(Some(section), key)) == Entry(Some(section), key)
  {
    if key in section {
      TrimOfTrimmed(section[key].s);
    }
  }

  /** The entries of an array of strings, read back by the save. */
  lemma {:induction false} AllowFromEntriesOfJStrings(items: seq<Value>)
    requires forall i :: 0 <= i < |items| ==> items[i].JString?
    ensures |AllowFromEntries(items)| == |items|
    ensures forall i :: 0 <= i < |items| ==> AllowFromEntries(items)[i] == items[i].s
  {
    if items != [] {
      AllowFromEntriesOfJStrings(items[1..]);
    }
  }

  /** A saved allow-list, loaded and saved again, is the same array. */
  lemma AllowFromEditOfLoaded(section: Object)
    requires CanonicalSection(section)
    ensures AllowFromEdit(AllowFromText(Some(section))) == Entry(Some(section), "allowFrom")
  {
    if "allowFrom" in section {
      var items := section["allowFrom"].items;
      AllowFromEntriesOfJStrings(items);
      var entries := AllowFromEntries(items);
      ParseJoin(entries);
      assert StringArray(entries) == JArray(items);
    }
  }

  /** The edits a freshly loaded canonical section asks for are exactly its
      own entries. */
  lemma EditsOfLoaded(root: Object, section: Object)
    requires "telegram" in root && root["telegram"] == JObject(section)
    requires CanonicalSection(section)
    ensures EditsOf(ProjectForm(Some(root))) == SectionEdits(
      Entry(Some(section), "botToken"),
      Entry(Some(section), "requireMention"),
      Entry(Some(section), "allowFrom"),
      Entry(Some(section), "proxy"),
      Entry(Some(section), "webhookUrl"),
      Entry(Some(section), "webhookSecret"),
      Entry(Some(section), "webhookPath"))
  {
    assert TelegramSection(Some(root)) == Some(section);
    TextEditOfLoaded(section, "botToken");
    TextEditOfLoaded(section, "proxy");
    TextEditOfLoaded(section, "webhookUrl");
    TextEditOfLoaded(section, "webhookSecret");
    TextEditOfLoaded(section, "webhookPath");
    AllowFromEditOfLoaded(section);
  }

  /** Edits that restate a section's own entries leave it as it is. */
  lemma MergedOwnEntries(section: Object)
    ensures Merged(section, SectionEdits(
      Entry(Some(section), "botToken"),
      Entry(Some(section), "requireMention"),
      Entry(Some(section), "allowFrom"),
      Entry(Some(section), "proxy"),
      Entry(Some(section), "webhookUrl"),
      Entry(Some(section), "webhookSecret"),
      Entry(Some(section), "webhookPath"))) == section
  {
    var edits := SectionEdits(
      Entry(Some(section), "botToken"),
      Entry(Some(section), "requireMention"),
      Entry(Some(section), "allowFrom"),
      Entry(Some(section), "proxy"),
      Entry(Some(section), "webhookUrl"),
      Entry(Some(section), "webhookSecret"),
      Entry(Some(section), "webhookPath"));
    assert forall k :: k in EditableKeys ==> edits.For(k) == Entry(Some(section), k);
    assert Merged(section, edits).Keys == section.Keys;
  }

  /** Loading a section the save wrote and saving it again, with no edit in
      between, writes back exactly that section. */
  lemma LoadThenSave(root: Object, section: Object)
    requires "telegram" in root && root["telegram"] == JObject(section)
    requires CanonicalSection(section)
    ensures Merged(section, EditsOf(ProjectForm(Some(root)))) == section
  {
    EditsOfLoaded(root, section);
    MergedOwnEntries(section);
  }

  /** Only whitespace: no allow-list entry survives. */
  lemma BlankAllowFromHasNoEntries(text: string)
    requires AllWhitespace(text)
    ensures ParseAllowFrom(text) == []
  {
    FieldsOfCommaFree(text);
    TrimsCons(text, []);
    NonEmptyTrimsNonEmpty(Fields(text));
  }

  /** A form whose every text field is blank still saves a section: it holds
      `requireMention` and the keys the form does not edit, so the branch of
      the save that removes the whole section is never taken. */
  lemma BlankFormKeepsSection(section: Object, form: TelegramForm)
    requires AllWhitespace(form.token) && AllWhitespace(form.allowFrom) && AllWhitespace(form.proxy)
    requires AllWhitespace(form.webhookUrl) && AllWhitespace(form.webhookSecret) && AllWhitespace(form.webhookPath)
    ensures Merged(section, EditsOf(form)) == (section - EditableKeys)["requireMention" := JBool(form.requireMention)]
  {
    BlankAllowFromHasNoEntries(form.allowFrom);
    var flag := JBool(form.requireMention);
    assert EditsOf(form) == SectionEdits(None, Some(flag), None, None, None, None, None);
    MergedFlagOnly(section, flag);
  }

  /** Edits that only write the flag leave the other keys of the section and
      remove every other editable key. */
  lemma MergedFlagOnly(section: Object, flag: Value)
    ensures Merged(section, SectionEdits(None, Some(flag), None, None, None, None, None))
      == (section - EditableKeys)["requireMention" := flag]
  {
    var edits := SectionEdits(None, Some(flag), None, None, None, None, None);
    var merged := Merged(section, edits);
    var expected := (section - EditableKeys)["requireMention" := flag];
    assert forall k :: k in EditableKeys ==> (edits.For(k).Some? <==> k == "requireMention");
    assert merged.Keys == expected.Keys;
  }

  /** The example the form's placeholder shows. */
  lemma AllowFromExample()
    ensures ParseAllowFrom("123456789, @team") == ["123456789", "@team"]
  {
    assert Join(["123456789", "@team"], ", ") == "123456789, @team" by {}
    assert AllowEntry("123456789") && AllowEntry("@team") by {}
    ParseJoin(["123456789", "@team"]);
  }
}
