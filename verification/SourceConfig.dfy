/** The receiver's configuration: `LoadSources` and the bindings it reads. */
module SourceConfig {
  import opened Text
  import opened Json
  import opened Payload
  import opened Checkout
  import opened RepositoryIdentity
  import opened CoreCommand

  const MAX_CONFIG := 65536

  /** Keys are held by ID as the hexadecimal text that was validated. */
  datatype Source = Source(
    id: string, workspaceId: string, componentId: string, job: string, binding: Option<Binding>, keys: map<string, string>)

  /** The host functions and the bounded file reader. */
  datatype Environment = Environment(codec: Codec, net: Net, read: string -> Option<string>)

  const ROOT_NAMES := ["version", "sources"]
  const ENTRY_NAMES := ["source_id", "workspace_id", "component_id", "job_full_name", "keys"]
  const BOUND_NAMES := ENTRY_NAMES + ["checkout_binding"]
  const KEY_NAMES := ["key_id", "secret_file"]
  const BINDING_NAMES := ["binding_id", "repository_id", "provider", "provider_origin", "external_id", "profile", "effective_from_build"]

  /** `^(wrk|cmp)_[A-Za-z0-9_-]+$` with the given prefix. */
  predicate ScopedId(id: string, prefix: string)
    requires |prefix| == 4
  {
    HasPrefix(id, prefix) && |id| > 4 && forall c | c in id[4..] :: IsIdChar(c)
  }

  function ItemsOf(v: Value): Option<seq<Value>> {
    if v.Array? then Some(v.items) else None
  }

  function TrimLineEnd(s: string): string {
    if HasSuffix(s, "\r\n") then s[..|s| - 2] else if HasSuffix(s, "\n") then s[..|s| - 1] else s
  }

  function ReadKey(env: Environment, path: string): Option<string> {
    if !HasPrefix(path, "/") then None
    else match env.read(path)
         case None => None
         case Some(body) =>
           if |body| <= 66 && LowerHex(TrimLineEnd(body), 64) then Some(TrimLineEnd(body)) else None
  }

  /** One member of `keys`: its ID and its secret. */
  function ReadKeyEntry(env: Environment, entry: Value): Option<(string, string)> {
    match Fields(entry, KEY_NAMES)
    case None => None
    case Some(f) =>
      assert "key_id" in KEY_NAMES && "secret_file" in KEY_NAMES;
      var id, path := ToText(f["key_id"]), ToText(f["secret_file"]);
      if id.None? || path.None? || !TokenPattern(id.value) then None
      else match ReadKey(env, path.value)
           case None => None
           case Some(secret) => Some((id.value, secret))
  }

  /** The keys of a source; none when an entry is invalid or an ID repeats. */
  function KeysFrom(env: Environment, entries: seq<Value>): Option<map<string, string>> {
    if entries == [] then Some(map[])
    else
      var last := ReadKeyEntry(env, entries[|entries| - 1]);
      match KeysFrom(env, entries[..|entries| - 1])
      case None => None
      case Some(keys) =>
        if last.None? || last.value.0 in keys then None else Some(keys[last.value.0 := last.value.1])
  }

  /** `readKey`: a bounded file at an absolute path that holds 64 hexadecimal digits and at most one line end. */
  method LoadSecret(env: Environment, path: string) returns (secret: Option<string>)
    ensures secret == ReadKey(env, path)
  {
    hide LowerHex;
    if !HasPrefix(path, "/") {
      return None;
    }
    var body := env.read(path);
    if body.None? || |body.value| > 66 {
      return None;
    }
    var value := body.value;
    if HasSuffix(value, "\r\n") {
      value := value[..|value| - 2];
    } else if HasSuffix(value, "\n") {
      value := value[..|value| - 1];
    }
    if !LowerHex(value, 64) {
      return None;
    }
    return Some(value);
  }

  /** One member of `keys`, step by step. */
  method LoadKey(env: Environment, entry: Value) returns (r: Option<(string, string)>)
    ensures r == ReadKeyEntry(env, entry)
  {
    hide Closed, Collect, TokenPattern;
    var fields := DecodeObject(entry, ["key_id", "secret_file"]);
    if fields.None? {
      return None;
    }
    assert KEY_NAMES == ["key_id", "secret_file"] && KEY_NAMES[0] in KEY_NAMES && KEY_NAMES[1] in KEY_NAMES;
    NamesPresent(entry, KEY_NAMES);
    var f := fields.value;
    if !f["key_id"].String? || !f["secret_file"].String? || !TokenPattern(f["key_id"].text) {
      return None;
    }
    var secret := LoadSecret(env, f["secret_file"].text);
    if secret.None? {
      return None;
    }
    return Some((f["key_id"].text, secret.value));
  }

  /** `parseCheckoutBinding`, step by step. */
  method LoadBinding(env: Environment, v: Value) returns (r: Option<Binding>)
    ensures r == ParseCheckoutBinding(env, v)
  {
    hide Closed, Collect, NormalizeBinding, ParseInt;
    var fields := DecodeObject(v, ["binding_id", "repository_id", "provider", "provider_origin", "external_id", "profile", "effective_from_build"]);
    if fields.None? {
      return None;
    }
    assert BINDING_NAMES == ["binding_id", "repository_id", "provider", "provider_origin", "external_id", "profile", "effective_from_build"];
    NamesPresent(v, BINDING_NAMES);
    assert BINDING_NAMES[0] in BINDING_NAMES && BINDING_NAMES[1] in BINDING_NAMES && BINDING_NAMES[2] in BINDING_NAMES;
    assert BINDING_NAMES[3] in BINDING_NAMES && BINDING_NAMES[4] in BINDING_NAMES && BINDING_NAMES[5] in BINDING_NAMES;
    assert BINDING_NAMES[6] in BINDING_NAMES;
    var f := fields.value;
    if !f["binding_id"].String? || !f["repository_id"].String? || !f["provider"].String? || !f["provider_origin"].String?
       || !f["external_id"].String? || !f["profile"].String? || ToInt(f["effective_from_build"]).None? {
      return None;
    }
    var b := Binding(f["binding_id"].text, f["repository_id"].text, f["provider"].text, f["provider_origin"].text,
                     f["external_id"].text, f["profile"].text, ToInt(f["effective_from_build"]).value);
    var normalized := NormalizeBinding(env.net, b);
    if normalized.None? || !BuildNumberToken(Token(f["effective_from_build"])) {
      return None;
    }
    return normalized;
  }

  method ReadKeys(env: Environment, entries: seq<Value>) returns (r: Option<map<string, string>>)
    ensures r == KeysFrom(env, entries)
  {
    hide ReadKeyEntry;
    var keys: map<string, string> := map[];
    var i := 0;
    while i < |entries|
      invariant 0 <= i <= |entries| && KeysFrom(env, entries[..i]) == Some(keys)
    {
      assert entries[..i + 1][..i] == entries[..i];
      var entry := LoadKey(env, entries[i]);
      if entry.None? || entry.value.0 in keys {
        KeysStayRefused(env, entries, i + 1);
        return None;
      }
      keys := keys[entry.value.0 := entry.value.1];
      i := i + 1;
    }
    assert entries[..i] == entries;
    return Some(keys);
  }

  lemma {:induction false} KeysStayRefused(env: Environment, entries: seq<Value>, i: nat)
    requires i <= |entries| && KeysFrom(env, entries[..i]).None?
    ensures KeysFrom(env, entries).None?
    decreases |entries|
  {
    if i < |entries| {
      assert entries[..|entries| - 1][..i] == entries[..i];
      KeysStayRefused(env, entries[..|entries| - 1], i);
    } else {
      assert entries[..i] == entries;
    }
  }

  function ParseCheckoutBinding(env: Environment, v: Value): Option<Binding> {
    match Fields(v, BINDING_NAMES)
    case None => None
    case Some(f) =>
      assert "binding_id" in BINDING_NAMES && "repository_id" in BINDING_NAMES && "provider" in BINDING_NAMES;
      assert "provider_origin" in BINDING_NAMES && "external_id" in BINDING_NAMES && "profile" in BINDING_NAMES;
      assert "effective_from_build" in BINDING_NAMES;
      if !f["binding_id"].String? || !f["repository_id"].String? || !f["provider"].String? || !f["provider_origin"].String?
         || !f["external_id"].String? || !f["profile"].String? || ToInt(f["effective_from_build"]).None?
         || !BuildNumberToken(Token(f["effective_from_build"]))
      then None
      else
        NormalizeBinding(env.net, Binding(f["binding_id"].text, f["repository_id"].text, f["provider"].text,
          f["provider_origin"].text, f["external_id"].text, f["profile"].text, ToInt(f["effective_from_build"]).value))
  }

  function EntryNames(version: int): seq<string> {
    if version == 2 then BOUND_NAMES else ENTRY_NAMES
  }

  predicate EntryFields(version: int, f: map<string, Value>) {
    && "source_id" in f && "workspace_id" in f && "component_id" in f && "job_full_name" in f && "keys" in f
    && (version == 2 ==> "checkout_binding" in f)
  }

  lemma EntryFieldsOf(v: Value, version: int)
    requires Fields(v, EntryNames(version)).Some?
    ensures EntryFields(version, Fields(v, EntryNames(version)).value)
  {
    var names := EntryNames(version);
    assert "source_id" in names && "workspace_id" in names && "component_id" in names && "job_full_name" in names && "keys" in names;
    assert version == 2 ==> "checkout_binding" in names;
  }

  /** One source entry, apart from the uniqueness of its ID. */
  function ReadSource(env: Environment, version: int, entry: Value): Option<Source> {
    match Fields(entry, EntryNames(version))
    case None => None
    case Some(f) =>
      EntryFieldsOf(entry, version);
      var id, workspace, component := ToText(f["source_id"]), ToText(f["workspace_id"]), ToText(f["component_id"]);
      var job, entries := ToText(f["job_full_name"]), ItemsOf(f["keys"]);
      if id.None? || workspace.None? || component.None? || job.None? || entries.None? then None
      else if !TokenPattern(id.value) || !ScopedId(workspace.value, "wrk_") || !ScopedId(component.value, "cmp_")
           || !ValidJob(job.value) || !(1 <= |entries.value| <= 2) then None
      else
        var binding := if version == 2 then ParseCheckoutBinding(env, f["checkout_binding"]) else None;
        var keys := KeysFrom(env, entries.value);
        if (version == 2 && binding.None?) || keys.None? then None
        else Some(Source(id.value, workspace.value, component.value, job.value, binding, keys.value))
  }

  function Ids(sources: seq<Source>): set<string> { set s | s in sources :: s.id }

  function SourcesFrom(env: Environment, version: int, entries: seq<Value>): Option<seq<Source>> {
    if entries == [] then Some([])
    else
      var last := ReadSource(env, version, entries[|entries| - 1]);
      match SourcesFrom(env, version, entries[..|entries| - 1])
      case None => None
      case Some(sources) => if last.None? || last.value.id in Ids(sources) then None else Some(sources + [last.value])
  }

  function Loaded(env: Environment, body: Bytes): Option<seq<Source>> {
    if |body| > MAX_CONFIG then None
    else match env.codec.decode(body)
      case None => None
      case Some(v) =>
        match Fields(v, ROOT_NAMES)
        case None => None
        case Some(root) =>
          assert "version" in ROOT_NAMES && "sources" in ROOT_NAMES;
          var version, entries := ToInt(root["version"]), ItemsOf(root["sources"]);
          if version.None? || (version.value != 1 && version.value != 2) || entries.None? || !(1 <= |entries.value| <= 32) then None
          else SourcesFrom(env, version.value, entries.value)
  }

  method LoadSources(env: Environment, body: Bytes) returns (r: Option<seq<Source>>)
    ensures r == Loaded(env, body)
  {
    hide SourcesFrom;
    if |body| > 65536 {
      return None;
    }
    var decoded := env.codec.decode(body);
    if decoded.None? {
      return None;
    }
    var root := DecodeObject(decoded.value, ROOT_NAMES);
    if root.None? {
      return None;
    }
    assert "version" in ROOT_NAMES && "sources" in ROOT_NAMES;
    var version, entries := ToInt(root.value["version"]), ItemsOf(root.value["sources"]);
    if version.None? || (version.value != 1 && version.value != 2) || entries.None? || |entries.value| == 0 || |entries.value| > 32 {
      return None;
    }
    r := LoadEntries(env, version.value, entries.value);
  }

  /** The loop over the entries with the IDs seen so far. */
  method LoadEntries(env: Environment, version: int, entries: seq<Value>) returns (r: Option<seq<Source>>)
    ensures r == SourcesFrom(env, version, entries)
  {
    hide ReadSource;
    var sources: seq<Source> := [];
    var seen: set<string> := {};
    var i := 0;
    while i < |entries|
      invariant 0 <= i <= |entries|
      invariant SourcesFrom(env, version, entries[..i]) == Some(sources) && seen == Ids(sources)
    {
      assert entries[..i + 1][..i] == entries[..i];
      var source := LoadSource(env, version, entries[i]);
      if source.None? || source.value.id in seen {
        SourcesStayRefused(env, version, entries, i + 1);
        return None;
      }
      seen := seen + {source.value.id};
      sources := sources + [source.value];
      i := i + 1;
    }
    assert entries[..i] == entries;
    return Some(sources);
  }

  method LoadSource(env: Environment, version: int, entry: Value) returns (r: Option<Source>)
    ensures r == ReadSource(env, version, entry)
  {
    hide KeysFrom, ParseCheckoutBinding, ValidJob, TokenPattern, ScopedId;
    var fields := DecodeObject(entry, EntryNames(version));
    if fields.None? {
      return None;
    }
    EntryFieldsOf(entry, version);
    var f := fields.value;
    var id, workspace, component := ToText(f["source_id"]), ToText(f["workspace_id"]), ToText(f["component_id"]);
    var job, entries := ToText(f["job_full_name"]), ItemsOf(f["keys"]);
    if id.None? || workspace.None? || component.None? || job.None? || entries.None? {
      return None;
    }
    if !TokenPattern(id.value) || !ScopedId(workspace.value, "wrk_") || !ScopedId(component.value, "cmp_")
       || !ValidJob(job.value) || |entries.value| < 1 || |entries.value| > 2 {
      return None;
    }
    var binding := None;
    if version == 2 {
      binding := LoadBinding(env, f["checkout_binding"]);
      if binding.None? {
        return None;
      }
    }
    var keys := ReadKeys(env, entries.value);
    if keys.None? {
      return None;
    }
    return Some(Source(id.value, workspace.value, component.value, job.value, binding, keys.value));
  }

  lemma {:induction false} SourcesStayRefused(env: Environment, version: int, entries: seq<Value>, i: nat)
    requires i <= |entries| && SourcesFrom(env, version, entries[..i]).None?
    ensures SourcesFrom(env, version, entries).None?
    decreases |entries|
  {
    if i < |entries| {
      assert entries[..|entries| - 1][..i] == entries[..i];
      SourcesStayRefused(env, version, entries[..|entries| - 1], i);
    } else {
      assert entries[..i] == entries;
    }
  }

  // ---------- What an accepted configuration guarantees ----------

  predicate ValidSource(net: Net, s: Source) {
    && TokenPattern(s.id) && ScopedId(s.workspaceId, "wrk_") && ScopedId(s.componentId, "cmp_") && ValidJob(s.job)
    && 1 <= |s.keys| <= 2 && (forall k | k in s.keys :: TokenPattern(k) && LowerHex(s.keys[k], 64))
    && (s.binding.Some? ==> NormalizeBinding(net, s.binding.value) == s.binding)
  }

  lemma {:induction false} KeysAreValid(env: Environment, entries: seq<Value>)
    requires KeysFrom(env, entries).Some?
    ensures var keys := KeysFrom(env, entries).value;
      |keys| == |entries| && forall k | k in keys :: TokenPattern(k) && LowerHex(keys[k], 64)
  {
    hide Fields, TokenPattern, LowerHex;
    if entries != [] { KeysAreValid(env, entries[..|entries| - 1]); }
  }

  lemma BindingIsNormal(env: Environment, v: Value)
    requires Lawful(env.net) && ParseCheckoutBinding(env, v).Some?
    ensures var b := ParseCheckoutBinding(env, v); NormalizeBinding(env.net, b.value) == b
  {
    hide NormalizeBinding, Lawful;
    assert forall b: Binding | NormalizeBinding(env.net, b).Some? ::
      NormalizeBinding(env.net, NormalizeBinding(env.net, b).value) == NormalizeBinding(env.net, b) by {
      forall b: Binding | NormalizeBinding(env.net, b).Some?
        ensures NormalizeBinding(env.net, NormalizeBinding(env.net, b).value) == NormalizeBinding(env.net, b)
      {
        BindingIsIdempotent(env.net, b);
      }
    }
  }

  /** A source is what its entry says, member by member. */
  ghost predicate Describes(env: Environment, version: int, entry: Value, s: Source) {
    && Member(entry, "source_id") == String(s.id) && Member(entry, "workspace_id") == String(s.workspaceId)
    && Member(entry, "component_id") == String(s.componentId) && Member(entry, "job_full_name") == String(s.job)
    && Member(entry, "keys").Array? && (forall k | k in s.keys :: HoldsKey(env, Member(entry, "keys").items, k, s.keys[k]))
    && |s.keys| == |Member(entry, "keys").items|
    && (if version == 2 then s.binding.Some? && DescribesBinding(Member(entry, "checkout_binding"), s.binding.value) else s.binding.None?)
  }

  /** Some member of the list names the key and a file that holds the secret, up to its line end. */
  ghost predicate HoldsKey(env: Environment, entries: seq<Value>, id: string, secret: string) {
    exists i :: 0 <= i < |entries| && Member(entries[i], "key_id") == String(id) && Member(entries[i], "secret_file").String?
                && HoldsSecret(env, Member(entries[i], "secret_file").text, secret)
  }

  predicate HoldsSecret(env: Environment, path: string, secret: string) {
    env.read(path) == Some(secret) || env.read(path) == Some(secret + "\n") || env.read(path) == Some(secret + "\r\n")
  }

  /** The binding's members as written, except that the origin is in normal form. */
  predicate DescribesBinding(v: Value, b: Binding) {
    && Member(v, "binding_id") == String(b.bindingId) && Member(v, "repository_id") == String(b.repositoryId)
    && Member(v, "provider") == String(b.provider) && Member(v, "external_id") == String(b.externalId)
    && Member(v, "profile") == String(b.profile) && Member(v, "provider_origin").String?
    && 1 <= b.effectiveFrom <= 2147483647 && Token(Member(v, "effective_from_build")) == Format(b.effectiveFrom)
  }

  lemma KeySays(env: Environment, entry: Value)
    requires ReadKeyEntry(env, entry).Some?
    ensures var r := ReadKeyEntry(env, entry).value;
      && Member(entry, "key_id") == String(r.0) && Member(entry, "secret_file").String?
      && HoldsSecret(env, Member(entry, "secret_file").text, r.1)
  {
    hide LowerHex, TokenPattern;
    assert "key_id" in KEY_NAMES && "secret_file" in KEY_NAMES;
    var path := Member(entry, "secret_file").text;
    var body := env.read(path).value;
    LineEndTrimmed(body);
  }

  lemma LineEndTrimmed(s: string)
    ensures s == TrimLineEnd(s) || s == TrimLineEnd(s) + "\n" || s == TrimLineEnd(s) + "\r\n"
  {
    if HasSuffix(s, "\r\n") { assert s == s[..|s| - 2] + s[|s| - 2..]; }
    else if HasSuffix(s, "\n") { assert s == s[..|s| - 1] + s[|s| - 1..]; }
  }

  lemma {:induction false} KeysSay(env: Environment, entries: seq<Value>)
    requires KeysFrom(env, entries).Some?
    ensures var keys := KeysFrom(env, entries).value;
      |keys| == |entries| && forall k | k in keys :: HoldsKey(env, entries, k, keys[k])
  {
    hide ReadKeyEntry, HoldsSecret;
    if entries != [] {
      var front, last := entries[..|entries| - 1], entries[|entries| - 1];
      KeysSay(env, front);
      KeySays(env, last);
      var keys := KeysFrom(env, entries).value;
      forall k | k in keys ensures HoldsKey(env, entries, k, keys[k]) {
        if k != ReadKeyEntry(env, last).value.0 {
          var i :| 0 <= i < |front| && Member(front[i], "key_id") == String(k) && Member(front[i], "secret_file").String?
                   && HoldsSecret(env, Member(front[i], "secret_file").text, keys[k]);
          assert entries[i] == front[i];
        } else {
          assert entries[|entries| - 1] == last;
        }
      }
    }
  }

  lemma BindingSays(env: Environment, v: Value)
    requires ParseCheckoutBinding(env, v).Some?
    ensures DescribesBinding(v, ParseCheckoutBinding(env, v).value)
  {
    hide NormalizeRepositoryIdentity, TokenPattern, ValidConfigurationId, ParseInt;
    assert "binding_id" in BINDING_NAMES && "repository_id" in BINDING_NAMES && "provider" in BINDING_NAMES;
    assert "provider_origin" in BINDING_NAMES && "external_id" in BINDING_NAMES && "profile" in BINDING_NAMES;
    assert "effective_from_build" in BINDING_NAMES;
    TokenIsFormat(Member(v, "effective_from_build"), ParseCheckoutBinding(env, v).value.effectiveFrom);
  }

  lemma SourceSays(env: Environment, version: int, entry: Value)
    requires ReadSource(env, version, entry).Some?
    ensures Describes(env, version, entry, ReadSource(env, version, entry).value)
  {
    hide TokenPattern, ScopedId, ValidJob, KeysFrom, ParseCheckoutBinding, DescribesBinding, HoldsKey;
    EntryFieldsOf(entry, version);
    KeysSay(env, Member(entry, "keys").items);
    if version == 2 { BindingSays(env, Member(entry, "checkout_binding")); }
  }

  lemma {:induction false} SourcesSay(env: Environment, version: int, entries: seq<Value>, i: nat)
    requires SourcesFrom(env, version, entries).Some? && i < |entries|
    ensures |SourcesFrom(env, version, entries).value| == |entries|
    ensures Describes(env, version, entries[i], SourcesFrom(env, version, entries).value[i])
    decreases |entries|
  {
    hide ReadSource, Describes;
    var front := entries[..|entries| - 1];
    SourceSays(env, version, entries[|entries| - 1]);
    if |front| > 0 { SourcesSay(env, version, front, if i < |front| then i else 0); }
  }

  /** The loaded sources are those of the configuration, one for each entry, in its order and with its members. */
  lemma LoadedAsWritten(env: Environment, body: Bytes, i: nat)
    requires Loaded(env, body).Some? && i < |Loaded(env, body).value|
    ensures env.codec.decode(body).Some?
    ensures var v := env.codec.decode(body).value; var sources := Loaded(env, body).value;
      && Member(v, "sources").Array? && |sources| == |Member(v, "sources").items|
      && (ToInt(Member(v, "version")) == Some(1) || ToInt(Member(v, "version")) == Some(2))
      && Describes(env, ToInt(Member(v, "version")).value, Member(v, "sources").items[i], sources[i])
  {
    hide SourcesFrom, Describes, ParseInt;
    var v := env.codec.decode(body).value;
    assert "version" in ROOT_NAMES && "sources" in ROOT_NAMES;
    var version, entries := ToInt(Member(v, "version")).value, Member(v, "sources").items;
    SourcesSay(env, version, entries, 0);
    SourcesSay(env, version, entries, i);
  }

  lemma SourceIsValid(env: Environment, version: int, entry: Value)
    requires Lawful(env.net) && ReadSource(env, version, entry).Some?
    ensures ValidSource(env.net, ReadSource(env, version, entry).value)
  {
    hide Fields, TokenPattern, LowerHex, ScopedId, ValidJob, NormalizeBinding, Lawful, KeysFrom, ParseCheckoutBinding;
    EntryFieldsOf(entry, version);
    var f := Fields(entry, EntryNames(version)).value;
    KeysAreValid(env, ItemsOf(f["keys"]).value);
    if version == 2 { BindingIsNormal(env, f["checkout_binding"]); }
  }

  lemma {:induction false} SourcesAreValid(env: Environment, version: int, entries: seq<Value>)
    requires Lawful(env.net) && SourcesFrom(env, version, entries).Some?
    ensures var sources := SourcesFrom(env, version, entries).value;
      && |sources| == |entries|
      && (forall s | s in sources :: ValidSource(env.net, s))
      && forall i, j | 0 <= i < j < |sources| :: sources[i].id != sources[j].id
  {
    hide ReadSource, ValidSource, Lawful;
    if entries != [] {
      SourcesAreValid(env, version, entries[..|entries| - 1]);
      SourceIsValid(env, version, entries[|entries| - 1]);
      var front := SourcesFrom(env, version, entries[..|entries| - 1]).value;
      assert forall s | s in front :: s.id in Ids(front);
    }
  }

  /** Every loaded source is well formed, its binding is in normal form, and no two sources share an ID. */
  lemma LoadedSourcesAreValid(env: Environment, body: Bytes)
    requires Lawful(env.net) && Loaded(env, body).Some?
    ensures var sources := Loaded(env, body).value;
      && 1 <= |sources| <= 32
      && (forall s | s in sources :: ValidSource(env.net, s))
      && forall i, j | 0 <= i < j < |sources| :: sources[i].id != sources[j].id
  {
    hide SourcesFrom, ValidSource, Lawful;
    var root := Fields(env.codec.decode(body).value, ROOT_NAMES).value;
    assert "version" in ROOT_NAMES && "sources" in ROOT_NAMES;
    SourcesAreValid(env, ToInt(root["version"]).value, ItemsOf(root["sources"]).value);
  }
}
