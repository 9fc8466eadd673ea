/**
 * The model registry of src/substrate/shared/models/registry.py: models are
 * declared by environment variables named `<PROVIDER>_<SIZE>_MODEL`, stored
 * under their `<provider>_<size>` identifier, given provider-specific limits,
 * and checked for completeness.
 *
 * The environment is a parameter: the sequence of `(name, value)` pairs in the
 * order `os.environ.items()` yields them.
 */
module ModelRegistry {
  import opened Common

  datatype Size = XS | S | M | L | XL | XXL
  datatype Provider = Anthropic | OpenAI | Google | Groq

  /** Enum declaration order, which `validate` iterates in. */
  const Providers: seq<Provider> := [Anthropic, OpenAI, Google, Groq]
  const Sizes: seq<Size> := [XS, S, M, L, XL, XXL]

  /** `ModelSize.value`. */
  function SizeName(s: Size): string {
    match s
    case XS => "xs" case S => "s" case M => "m" case L => "l" case XL => "xl" case XXL => "xxl"
  }

  /** `ModelProvider.value`. */
  function ProviderName(p: Provider): string {
    match p
    case Anthropic => "anthropic" case OpenAI => "openai" case Google => "google" case Groq => "groq"
  }

  /** The spelling of a provider in environment variable names. */
  function ProviderEnv(p: Provider): string {
    match p
    case Anthropic => "ANTHROPIC" case OpenAI => "OPENAI" case Google => "GOOGLE" case Groq => "GROQ"
  }

  /** The spelling of a size in environment variable names. */
  function SizeEnv(s: Size): string {
    match s
    case XS => "XS" case S => "S" case M => "M" case L => "L" case XL => "XL" case XXL => "XXL"
  }

  /** `ModelProvider(name.lower())` for a name the key pattern accepted. */
  function ParseProvider(x: string): (r: Option<Provider>)
    ensures r.Some? ==> ProviderEnv(r.value) == x
  {
    if x == "ANTHROPIC" then Some(Anthropic)
    else if x == "OPENAI" then Some(OpenAI)
    else if x == "GOOGLE" then Some(Google)
    else if x == "GROQ" then Some(Groq)
    else None
  }

  /** `ModelSize(name.lower())` for a name the key pattern accepted. */
  function ParseSize(x: string): (r: Option<Size>)
    ensures r.Some? ==> SizeEnv(r.value) == x
  {
    if x == "XS" then Some(XS)
    else if x == "S" then Some(S)
    else if x == "M" then Some(M)
    else if x == "L" then Some(L)
    else if x == "XL" then Some(XL)
    else if x == "XXL" then Some(XXL)
    else None
  }

  lemma ParseProviderEnv(p: Provider)
    ensures ParseProvider(ProviderEnv(p)) == Some(p)
  {
  }

  lemma ParseSizeEnv(s: Size)
    ensures ParseSize(SizeEnv(s)) == Some(s)
  {
  }

  /** The cost tier `__post_init__` derives from the size (the `.get` default 3 is unreachable). */
  function CostTier(s: Size): (t: int)
    ensures 1 <= t <= 5
    ensures t == 1 <==> s == XS || s == S
    ensures t == 5 <==> s == XXL
  {
    match s
    case XS => 1 case S => 1 case M => 2 case L => 3 case XL => 4 case XXL => 5
  }

  /** Position of a size in the enum. */
  function SizeRank(s: Size): nat {
    match s
    case XS => 0 case S => 1 case M => 2 case L => 3 case XL => 4 case XXL => 5
  }

  /** A larger model never sits in a cheaper tier. */
  lemma CostTierMonotone(a: Size, b: Size)
    requires SizeRank(a) <= SizeRank(b)
    ensures CostTier(a) <= CostTier(b)
  {
  }

  /** The `identifier` property: `"<provider>_<size>"`. */
  function IdentifierOf(p: Provider, s: Size): string {
    ProviderName(p) + "_" + SizeName(s)
  }

  /** Index of the first `c` in `s`. */
  function IndexOf(s: string, c: char): (r: Option<nat>)
    ensures r.Some? ==> r.value < |s| && s[r.value] == c && forall j :: 0 <= j < r.value ==> s[j] != c
    ensures r.None? ==> forall j :: 0 <= j < |s| ==> s[j] != c
  {
    if |s| == 0 then None
    else if s[0] == c then Some(0)
    else match IndexOf(s[1..], c)
      case None => None
      case Some(i) => Some(i + 1)
  }

  /** In `a + "_" + b` with no `_` in `a`, the first `_` is the one joining the halves. */
  lemma FirstUnderscore(a: string, b: string)
    requires forall j :: 0 <= j < |a| ==> a[j] != '_'
    ensures IndexOf(a + "_" + b, '_') == Some(|a|)
  {
    var s := a + "_" + b;
    assert s[|a|] == '_';
    assert forall j :: 0 <= j < |a| ==> s[j] == a[j];
  }

  /** Distinct provider/size pairs have distinct identifiers, so the registry holds at most one model per pair. */
  lemma IdentifierInjective(p1: Provider, s1: Size, p2: Provider, s2: Size)
    requires IdentifierOf(p1, s1) == IdentifierOf(p2, s2)
    ensures p1 == p2 && s1 == s2
  {
    var id := IdentifierOf(p1, s1);
    FirstUnderscore(ProviderName(p1), SizeName(s1));
    FirstUnderscore(ProviderName(p2), SizeName(s2));
    var k := |ProviderName(p1)|;
    assert ProviderName(p1) == id[..k] == ProviderName(p2);
    assert SizeName(s1) == id[k + 1..] == SizeName(s2);
  }

  /** The environment variable that declares a model. */
  function KeyName(p: Provider, s: Size): string {
    ProviderEnv(p) + "_" + SizeEnv(s) + "_MODEL"
  }

  /** The name with one trailing newline removed. */
  function DropNewline(key: string): (k: string)
    ensures k == key || key == k + "\n"
  {
    if |key| > 0 && key[|key| - 1] == '\n' then key[..|key| - 1] else key
  }

  /** `<PROVIDER>_<SIZE>` split at its first underscore. */
  function ParseBody(body: string): (r: Option<(Provider, Size)>)
  {
    match IndexOf(body, '_')
    case None => None
    case Some(i) =>
      match (ParseProvider(body[..i]), ParseSize(body[i + 1..]))
      case (Some(p), Some(s)) => Some((p, s))
      case _ => None
  }

  /**
   * `model_pattern.match(key)` with `^(ANTHROPIC|OPENAI|GOOGLE|GROQ)_(XS|S|M|L|XL|XXL)_MODEL$`.
   * Python's `$` also matches just before a final newline, so one trailing
   * `\n` is tolerated.
   */
  function ParseModelKey(key: string): (r: Option<(Provider, Size)>)
  {
    var k := DropNewline(key);
    if EndsWith(k, "_MODEL") then ParseBody(k[..|k| - 6]) else None
  }

  lemma ProviderEnvNoUnderscore(p: Provider)
    ensures forall j :: 0 <= j < |ProviderEnv(p)| ==> ProviderEnv(p)[j] != '_'
  {
  }

  /** The body parses to exactly the pair it spells. */
  lemma ParseBodyIff(body: string, p: Provider, s: Size)
    ensures ParseBody(body) == Some((p, s)) <==> body == ProviderEnv(p) + "_" + SizeEnv(s)
  {
    var a := ProviderEnv(p);
    if body == a + "_" + SizeEnv(s) {
      ProviderEnvNoUnderscore(p);
      FirstUnderscore(a, SizeEnv(s));
      assert body[..|a|] == a;
      assert body[|a| + 1..] == SizeEnv(s);
      ParseProviderEnv(p);
      ParseSizeEnv(s);
    }
    if ParseBody(body) == Some((p, s)) {
      var i := IndexOf(body, '_').value;
      assert body[..i] == a && body[i + 1..] == SizeEnv(s);
      assert body == body[..i] + "_" + body[i + 1..];
    }
  }

  /** A declared name (possibly followed by one newline) parses to its pair. */
  lemma ParseModelKeyOfName(key: string, p: Provider, s: Size)
    requires key == KeyName(p, s) || key == KeyName(p, s) + "\n"
    ensures ParseModelKey(key) == Some((p, s))
  {
    var body := ProviderEnv(p) + "_" + SizeEnv(s);
    var name := KeyName(p, s);
    assert name == body + "_MODEL";
    var k := DropNewline(key);
    assert k == name by {
      assert name[|name| - 1] == 'L';
      if key == name + "\n" {
        assert key[..|key| - 1] == name;
      }
    }
    assert EndsWith(k, "_MODEL") && k[..|k| - 6] == body;
    ParseBodyIff(body, p, s);
  }

  /** A key that parses to a pair is that pair's name, possibly followed by one newline. */
  lemma ParseModelKeyIsName(key: string, p: Provider, s: Size)
    requires ParseModelKey(key) == Some((p, s))
    ensures key == KeyName(p, s) || key == KeyName(p, s) + "\n"
  {
    var k := DropNewline(key);
    assert EndsWith(k, "_MODEL");
    var body := k[..|k| - 6];
    assert k[|k| - 6..] == "_MODEL";
    assert k == body + k[|k| - 6..];
    ParseBodyIff(body, p, s);
  }

  /** Exactly the 24 declared names (each possibly followed by one newline) are model keys. */
  lemma ParseModelKeyIff(key: string, p: Provider, s: Size)
    ensures ParseModelKey(key) == Some((p, s)) <==> key == KeyName(p, s) || key == KeyName(p, s) + "\n"
  {
    if key == KeyName(p, s) || key == KeyName(p, s) + "\n" {
      ParseModelKeyOfName(key, p, s);
    }
    if ParseModelKey(key) == Some((p, s)) {
      ParseModelKeyIsName(key, p, s);
    }
  }

  /** `os.getenv(name)`: the value of the first variable so named. */
  function EnvGet(env: seq<(string, string)>, name: string): (r: Option<string>)
    ensures r.Some? <==> exists i :: 0 <= i < |env| && env[i].0 == name
  {
    if |env| == 0 then None
    else if env[0].0 == name then Some(env[0].1)
    else
      var r := EnvGet(env[1..], name);
      assert forall i :: 1 <= i < |env| ==> env[i] == env[1..][i - 1];
      r
  }

  /** `if match and value`: a key that declares a model and has a non-empty value. */
  function Accept(entry: (string, string)): Option<(Provider, Size)> {
    if entry.1 != "" then ParseModelKey(entry.0) else None
  }

  /** A declaration: the provider and size an environment entry is accepted for, the identifier it is stored under, and its value. */
  datatype Decl = Decl(accepted: Option<(Provider, Size)>, id: Option<string>, value: string)

  /** The identifier of a declaration is that of its provider and size. */
  predicate WellFormed(d: Decl) {
    d.id == if d.accepted.Some? then Some(IdentifierOf(d.accepted.value.0, d.accepted.value.1)) else None
  }

  /** The declaration of one environment entry. */
  function DeclOf(entry: (string, string)): (d: Decl)
    ensures WellFormed(d)
  {
    var a := Accept(entry);
    Decl(a, if a.Some? then Some(IdentifierOf(a.value.0, a.value.1)) else None, entry.1)
  }

  /** The declarations of an environment, entry by entry. */
  function Decls(env: seq<(string, string)>): (ds: seq<Decl>)
    ensures |ds| == |env|
    ensures forall i :: 0 <= i < |ds| ==> WellFormed(ds[i])
  {
    seq(|env|, i requires 0 <= i < |env| => DeclOf(env[i]))
  }

  /** The dictionary the loading loop fills: each accepted identifier mapped to the api name last assigned to it. */
  function Assigned(ds: seq<Decl>): (r: map<string, string>)
    decreases |ds|
  {
    if |ds| == 0 then map[]
    else
      var prev := Assigned(ds[..|ds| - 1]);
      var d := ds[|ds| - 1];
      if d.id.Some? then prev[d.id.value := d.value] else prev
  }

  /** The loaded models are exactly the declared ones. */
  lemma {:induction false} AssignedKeys(ds: seq<Decl>, id: string)
    ensures id in Assigned(ds) <==> exists i :: 0 <= i < |ds| && ds[i].id == Some(id)
    decreases |ds|
  {
    if |ds| > 0 {
      var n := |ds| - 1;
      var pre := ds[..n];
      AssignedKeys(pre, id);
      assert forall i :: 0 <= i < n ==> pre[i] == ds[i];
    }
  }

  /** Each loaded model carries the value of the last declaration of it: a later assignment overwrites. */
  lemma {:induction false} AssignedLastWins(ds: seq<Decl>, id: string)
    requires id in Assigned(ds)
    ensures exists i :: (0 <= i < |ds| && ds[i].id == Some(id) && Assigned(ds)[id] == ds[i].value
      && forall j :: i < j < |ds| ==> ds[j].id != Some(id))
    decreases |ds|
  {
    var n := |ds| - 1;
    var pre := ds[..n];
    if ds[n].id == Some(id) {
      assert Assigned(ds)[id] == ds[n].value;
    } else {
      assert id in Assigned(pre) && Assigned(ds)[id] == Assigned(pre)[id];
      AssignedLastWins(pre, id);
      var i :| 0 <= i < n && pre[i].id == Some(id) && Assigned(pre)[id] == pre[i].value
        && forall j :: i < j < n ==> pre[j].id != Some(id);
      assert ds[i] == pre[i];
      assert forall j :: i < j < n ==> ds[j] == pre[j];
    }
  }

  /** The identifiers in the order Python's dict first received them. */
  function FirstSeen(ds: seq<Decl>): (r: seq<string>)
    ensures NoDups(r)
    ensures Elems(r) == Assigned(ds).Keys
    decreases |ds|
  {
    if |ds| == 0 then []
    else
      var prev := FirstSeen(ds[..|ds| - 1]);
      var d := ds[|ds| - 1];
      if d.id.None? || d.id.value in prev then prev
      else
        ElemsAppend(prev, d.id.value);
        prev + [d.id.value]
  }

  /** The api name each identifier ends up with after `_load_from_environment`. */
  function LoadedNames(env: seq<(string, string)>): map<string, string> {
    Assigned(Decls(env))
  }

  /** The identifiers in the order `_load_from_environment` first stored them. */
  function LoadOrder(env: seq<(string, string)>): seq<string> {
    FirstSeen(Decls(env))
  }

  /** The `ModelInfo` dataclass; `max_tokens` and `supports_system` are the fields later adjusted in place. */
  class ModelInfo {
    const provider: Provider
    const size: Size
    const apiName: string
    const nickname: string
    const apiKey: Option<string>
    const baseUrl: Option<string>
    const costTier: int
    var maxTokens: int
    var supportsSystem: bool
    var supportsStreaming: bool

    /** Construction with the dataclass defaults and `__post_init__`. */
    constructor(provider: Provider, size: Size, apiName: string, nickname: string,
                apiKey: Option<string>, baseUrl: Option<string>)
      ensures this.provider == provider && this.size == size && this.apiName == apiName
      ensures this.nickname == nickname && this.apiKey == apiKey && this.baseUrl == baseUrl
      ensures costTier == CostTier(size)
      ensures maxTokens == 4096 && supportsSystem && supportsStreaming
    {
      this.provider := provider;
      this.size := size;
      this.apiName := apiName;
      this.nickname := nickname;
      this.apiKey := apiKey;
      this.baseUrl := baseUrl;
      costTier := CostTier(size);
      maxTokens := 4096;
      supportsSystem := true;
      supportsStreaming := true;
    }

    function Identifier(): string {
      IdentifierOf(provider, size)
    }

    /** The provider-specific limits `_configure_model_specifics` establishes on a fresh model. */
    predicate Configured()
      reads this
    {
      maxTokens == MaxTokensFor(provider, size, apiName)
      && supportsSystem == !(provider == OpenAI && StartsWith(apiName, "o1"))
      && supportsStreaming
    }
  }

  /** The `max_tokens` `_configure_model_specifics` gives a model. */
  function MaxTokensFor(provider: Provider, size: Size, apiName: string): (t: int)
    ensures provider == Anthropic ==> t == (if size == XL || size == XXL then 8192 else 4096)
    ensures provider == OpenAI ==> t == (if StartsWith(apiName, "o1") then 32768 else 4096)
    ensures provider == Google ==> t == 8192
    ensures provider == Groq ==> t == 1024
  {
    match provider
    case Anthropic => if size in [XL, XXL] then 8192 else 4096
    case OpenAI => if StartsWith(apiName, "o1") then 32768 else 4096
    case Google => 8192
    case Groq => 1024
  }

  /** `_configure_model_specifics`: sets `max_tokens` by provider; `o1*` OpenAI models lose system prompts. */
  method ConfigureModelSpecifics(model: ModelInfo)
    modifies model
    ensures model.maxTokens == MaxTokensFor(model.provider, model.size, model.apiName)
    ensures model.supportsSystem == (old(model.supportsSystem) && !(model.provider == OpenAI && StartsWith(model.apiName, "o1")))
    ensures model.supportsStreaming == old(model.supportsStreaming)
  {
    match model.provider
    case Anthropic =>
      if model.size in [XL, XXL] {
        model.maxTokens := 8192;
      } else {
        model.maxTokens := 4096;
      }
    case OpenAI =>
      if StartsWith(model.apiName, "o1") {
        model.supportsSystem := false;
        model.maxTokens := 32768;
      } else {
        model.maxTokens := 4096;
      }
    case Google =>
      model.maxTokens := 8192;
    case Groq =>
      model.maxTokens := 1024;
  }

  /** What loading put in a model stored under `id` with api name `apiName`. */
  predicate Loaded(m: ModelInfo, id: string, apiName: string, env: seq<(string, string)>) {
    m.apiName == apiName && m.nickname == id && m.Identifier() == id
    && m.apiKey == EnvGet(env, ProviderEnv(m.provider) + "_API_KEY")
    && m.baseUrl == EnvGet(env, ProviderEnv(m.provider) + "_BASE_URL")
    && m.costTier == CostTier(m.size)
  }

  /** Every model sits under its own identifier; `order` lists each key once. */
  predicate ValidModels(models: map<string, ModelInfo>, order: seq<string>) {
    NoDups(order) && Elems(order) == models.Keys
    && forall id :: id in models ==> models[id].Identifier() == id
  }

  /** Every model of `models` carries what loading put in it, given the api names `names`. */
  predicate AllLoaded(models: map<string, ModelInfo>, names: map<string, string>, env: seq<(string, string)>) {
    models.Keys == names.Keys && forall id :: id in models ==> Loaded(models[id], id, names[id], env)
  }

  lemma AllLoadedUpdate(models: map<string, ModelInfo>, names: map<string, string>, env: seq<(string, string)>,
                        id: string, model: ModelInfo)
    requires AllLoaded(models, names, env)
    requires Loaded(model, id, model.apiName, env)
    ensures AllLoaded(models[id := model], names[id := model.apiName], env)
  {
  }

  lemma AssignedStep(ds: seq<Decl>, i: int)
    requires 0 <= i < |ds|
    ensures Assigned(ds[..i + 1]) ==
      if ds[i].id.Some? then Assigned(ds[..i])[ds[i].id.value := ds[i].value] else Assigned(ds[..i])
    ensures FirstSeen(ds[..i + 1]) ==
      if ds[i].id.Some? && ds[i].id.value !in FirstSeen(ds[..i]) then FirstSeen(ds[..i]) + [ds[i].id.value]
      else FirstSeen(ds[..i])
  {
    assert ds[..i + 1][..i] == ds[..i];
  }

  /** The `ModelInfo` `_load_from_environment` builds for an accepted entry, after `_configure_model_specifics`. */
  method NewModel(d: Decl, env: seq<(string, string)>) returns (model: ModelInfo)
    requires WellFormed(d) && d.accepted.Some?
    ensures fresh(model)
    ensures Loaded(model, d.id.value, d.value, env) && model.apiName == d.value
    ensures model.Configured()
  {
    var (p, s) := d.accepted.value;
    model := new ModelInfo(p, s, d.value, d.id.value,
      EnvGet(env, ProviderEnv(p) + "_API_KEY"), EnvGet(env, ProviderEnv(p) + "_BASE_URL"));
    ConfigureModelSpecifics(model);
  }

  /** Storing a model under its own identifier keeps every model under its identifier, and lists a new key once at the end. */
  lemma ValidModelsUpdate(models: map<string, ModelInfo>, order: seq<string>, id: string, model: ModelInfo)
    requires ValidModels(models, order) && model.Identifier() == id
    ensures ValidModels(models[id := model], if id in order then order else order + [id])
  {
    if id !in order {
      ElemsAppend(order, id);
    }
  }

  /** Storing a configured model keeps every stored model configured. */
  lemma ConfiguredUpdate(models: map<string, ModelInfo>, id: string, model: ModelInfo, models': map<string, ModelInfo>)
    requires forall k :: k in models ==> models[k].Configured()
    requires model.Configured() && models' == models[id := model]
    ensures forall k :: k in models' ==> models'[k].Configured()
  {
  }

  /** The body of `_load_from_environment`'s loop for an accepted entry: build, configure and store one model. */
  method Store(models: map<string, ModelInfo>, order: seq<string>, names: map<string, string>, d: Decl,
               env: seq<(string, string)>) returns (models': map<string, ModelInfo>, order': seq<string>)
    requires WellFormed(d) && d.accepted.Some?
    requires ValidModels(models, order) && AllLoaded(models, names, env)
    requires forall id :: id in models ==> models[id].Configured()
    ensures ValidModels(models', order') && AllLoaded(models', names[d.id.value := d.value], env)
    ensures forall id :: id in models' ==> models'[id].Configured()
    ensures order' == if d.id.value in order then order else order + [d.id.value]
  {
    var id := d.id.value;
    var model := NewModel(d, env);
    AllLoadedUpdate(models, names, env, id, model);
    ValidModelsUpdate(models, order, id, model);
    ConfiguredUpdate(models, id, model, models[id := model]);
    order' := if id in order then order else order + [id];
    models' := models[id := model];
  }

  /** The loop of `_load_from_environment` over the declarations. */
  method StoreAll(ds: seq<Decl>, env: seq<(string, string)>) returns (models: map<string, ModelInfo>, order: seq<string>)
    requires forall i :: 0 <= i < |ds| ==> WellFormed(ds[i])
    ensures ValidModels(models, order)
    ensures order == FirstSeen(ds)
    ensures AllLoaded(models, Assigned(ds), env)
    ensures forall id :: id in models ==> models[id].Configured()
  {
    models := map[];
    order := [];
    var i := 0;
    while i < |ds|
      invariant 0 <= i <= |ds|
      invariant ValidModels(models, order)
      invariant order == FirstSeen(ds[..i])
      invariant AllLoaded(models, Assigned(ds[..i]), env)
      invariant forall id :: id in models ==> models[id].Configured()
    {
      AssignedStep(ds, i);
      if ds[i].accepted.Some? {
        assert WellFormed(ds[i]);
        models, order := Store(models, order, Assigned(ds[..i]), ds[i], env);
      } else {
        assert WellFormed(ds[i]);
      }
      i := i + 1;
    }
    assert ds[..|ds|] == ds;
  }

  /**
   * `_load_from_environment`: every accepted environment entry becomes a
   * configured model under its identifier, with api key and base url read
   * from `<PROVIDER>_API_KEY` and `<PROVIDER>_BASE_URL`.
   */
  method LoadFromEnvironment(env: seq<(string, string)>) returns (models: map<string, ModelInfo>, order: seq<string>)
    ensures ValidModels(models, order)
    ensures order == LoadOrder(env)
    ensures AllLoaded(models, LoadedNames(env), env)
    ensures forall id :: id in models ==> models[id].Configured()
  {
    models, order := StoreAll(Decls(env), env);
  }

  /** A model matches `list_models`' filters: every given filter agrees. */
  predicate Matches(m: ModelInfo, provider: Option<Provider>, size: Option<Size>) {
    (provider.None? || m.provider == provider.value) && (size.None? || m.size == size.value)
  }

  /** How many of the models of `ids` pass the filters. */
  function CountMatching(ids: seq<string>, models: map<string, ModelInfo>, provider: Option<Provider>, size: Option<Size>)
    : (n: nat)
    requires forall id :: id in ids ==> id in models
    ensures n <= |ids|
    decreases |ids|
  {
    if |ids| == 0 then 0
    else
      CountMatching(ids[..|ids| - 1], models, provider, size)
      + (if Matches(models[ids[|ids| - 1]], provider, size) then 1 else 0)
  }

  /**
   * The models of `ids` that pass the filters, in the order of `ids`: one entry
   * per matching identifier, the model of the i-th identifier coming after the
   * models of the matching identifiers before it.
   */
  function Select(ids: seq<string>, models: map<string, ModelInfo>, provider: Option<Provider>, size: Option<Size>)
    : (r: seq<ModelInfo>)
    requires forall id :: id in ids ==> id in models
    ensures |r| == CountMatching(ids, models, provider, size)
    ensures forall m :: m in r ==> Matches(m, provider, size) && m in models.Values
    ensures forall i :: 0 <= i < |ids| && Matches(models[ids[i]], provider, size) ==>
      CountMatching(ids[..i], models, provider, size) < |r|
      && r[CountMatching(ids[..i], models, provider, size)] == models[ids[i]]
    ensures forall id :: id in ids && Matches(models[id], provider, size) ==> models[id] in r
    decreases |ids|
  {
    if |ids| == 0 then []
    else
      var init := ids[..|ids| - 1];
      var prev := Select(init, models, provider, size);
      var m := models[ids[|ids| - 1]];
      assert ids == init + [ids[|ids| - 1]];
      assert ids[..|ids| - 1] == init;
      assert forall i :: 0 <= i < |init| ==> ids[..i] == init[..i];
      if Matches(m, provider, size) then prev + [m] else prev
  }

  /** The 24 provider × size pairs in the order `validate` visits them: every size of a provider, then the next provider. */
  function AllPairs(): (r: seq<(Provider, Size)>)
    ensures |r| == 24
  {
    seq(24, k requires 0 <= k < 24 => (Providers[k / 6], Sizes[k % 6]))
  }

  /** Row-major position of a pair. */
  lemma PairAt(i: int, j: int)
    requires 0 <= i < 4 && 0 <= j < 6
    ensures AllPairs()[6 * i + j] == (Providers[i], Sizes[j])
  {
    var k := 6 * i + j;
    assert k / 6 == i && k % 6 == j;
  }

  /** The identifier of a pair. */
  function PairId(ps: (Provider, Size)): string {
    IdentifierOf(ps.0, ps.1)
  }

  /** The 24 identifiers `validate` expects, in the order its loops produce them. */
  function ExpectedIds(): (r: seq<string>)
    ensures |r| == 24
  {
    seq(24, k requires 0 <= k < 24 => PairId(AllPairs()[k]))
  }

  lemma ExpectedIdAt(i: int, j: int, id: string)
    requires 0 <= i < 4 && 0 <= j < 6 && id == IdentifierOf(Providers[i], Sizes[j])
    ensures ExpectedIds()[6 * i + j] == id
  {
    PairAt(i, j);
  }

  /** Every provider/size combination is among the expected identifiers. */
  lemma ExpectedIdsComplete(p: Provider, s: Size)
    ensures IdentifierOf(p, s) in ExpectedIds()
  {
    assert p in Providers && s in Sizes;
    var i :| 0 <= i < 4 && Providers[i] == p;
    var j :| 0 <= j < 6 && Sizes[j] == s;
    ExpectedIdAt(i, j, IdentifierOf(p, s));
  }

  /** `missing_models` of `validate`: the identifiers with no model, in order. */
  function MissingModels(ids: seq<string>, models: map<string, ModelInfo>): (r: seq<string>)
    ensures |r| <= |ids|
    decreases |ids|
  {
    if |ids| == 0 then []
    else
      var id := ids[|ids| - 1];
      MissingModels(ids[..|ids| - 1], models) + (if id !in models then [id] else [])
  }

  /** `missing_api_keys` of `validate`: the identifiers whose model has a falsy key, in order. */
  function MissingApiKeys(ids: seq<string>, models: map<string, ModelInfo>): (r: seq<string>)
    ensures |r| <= |ids|
    decreases |ids|
  {
    if |ids| == 0 then []
    else
      var id := ids[|ids| - 1];
      MissingApiKeys(ids[..|ids| - 1], models) + (if id in models && !Given(models[id].apiKey) then [id] else [])
  }

  /** An identifier is reported missing iff it is expected and no model has it. */
  lemma {:induction false} MissingModelsIff(ids: seq<string>, models: map<string, ModelInfo>, x: string)
    ensures x in MissingModels(ids, models) <==> x in ids && x !in models
    decreases |ids|
  {
    if |ids| > 0 {
      var init := ids[..|ids| - 1];
      MissingModelsIff(init, models, x);
      assert ids == init + [ids[|ids| - 1]];
    }
  }

  /** An identifier is reported keyless iff it is expected and its model's key is falsy. */
  lemma {:induction false} MissingApiKeysIff(ids: seq<string>, models: map<string, ModelInfo>, x: string)
    ensures x in MissingApiKeys(ids, models) <==> x in ids && x in models && !Given(models[x].apiKey)
    decreases |ids|
  {
    if |ids| > 0 {
      var init := ids[..|ids| - 1];
      MissingApiKeysIff(init, models, x);
      assert ids == init + [ids[|ids| - 1]];
    }
  }

  /** A model is never reported both missing and keyless. */
  lemma MissingDisjoint(ids: seq<string>, models: map<string, ModelInfo>, x: string)
    ensures !(x in MissingModels(ids, models) && x in MissingApiKeys(ids, models))
  {
    MissingModelsIff(ids, models, x);
    MissingApiKeysIff(ids, models, x);
  }

  /** The `duplicate_models` messages for `(identifier, api_name)` pairs, given the api names already seen. */
  function DupsFrom(ps: seq<(string, string)>, seen: map<string, string>): seq<string>
    decreases |ps|
  {
    if |ps| == 0 then []
    else
      var (id, api) := ps[0];
      (if api in seen then [id + " and " + seen[api] + " both use " + api] else [])
        + DupsFrom(ps[1..], seen[api := id])
  }

  /** The api names of a sequence of pairs. */
  function ApiNames(ps: seq<(string, string)>): set<string> {
    set i | 0 <= i < |ps| :: ps[i].1
  }

  lemma ApiNamesCons(ps: seq<(string, string)>)
    requires |ps| > 0
    ensures ApiNames(ps) == {ps[0].1} + ApiNames(ps[1..])
  {
    var rest := ps[1..];
    assert forall i :: 1 <= i < |ps| ==> ps[i] == rest[i - 1];
    assert forall i :: 0 <= i < |rest| ==> rest[i] == ps[i + 1];
  }

  lemma {:induction false} ApiNamesBound(ps: seq<(string, string)>)
    ensures |ApiNames(ps)| <= |ps|
    decreases |ps|
  {
    if |ps| > 0 {
      ApiNamesCons(ps);
      ApiNamesBound(ps[1..]);
    }
  }

  /** Removing a first element from a set shrinks the part outside `keys` by one iff it was outside. */
  lemma NewElemsStep<T>(x: T, rest: set<T>, keys: set<T>)
    ensures |({x} + rest) - keys| == if x in keys then |rest - (keys + {x})| else |rest - (keys + {x})| + 1
  {
    var after := rest - (keys + {x});
    if x in keys {
      assert ({x} + rest) - keys == after;
    } else {
      assert ({x} + rest) - keys == {x} + after;
    }
  }

  /** How the distinct new api names change when the first pair is consumed. */
  lemma NewNamesStep(ps: seq<(string, string)>, seen: map<string, string>)
    requires |ps| > 0
    ensures var after := ApiNames(ps[1..]) - seen[ps[0].1 := ps[0].0].Keys;
      |ApiNames(ps) - seen.Keys| == (if ps[0].1 in seen then |after| else |after| + 1)
  {
    ApiNamesCons(ps);
    assert seen[ps[0].1 := ps[0].0].Keys == seen.Keys + {ps[0].1};
    NewElemsStep(ps[0].1, ApiNames(ps[1..]), seen.Keys);
  }

  lemma NewNamesBound(ps: seq<(string, string)>, seen: map<string, string>)
    ensures |ApiNames(ps) - seen.Keys| <= |ps|
  {
    ApiNamesBound(ps);
    assert ApiNames(ps) - seen.Keys <= ApiNames(ps);
  }

  /** One message per pair whose api name was seen before: the pairs minus the distinct new names. */
  lemma {:induction false} DupsFromCount(ps: seq<(string, string)>, seen: map<string, string>)
    ensures |DupsFrom(ps, seen)| == |ps| - |ApiNames(ps) - seen.Keys|
    decreases |ps|
  {
    if |ps| > 0 {
      var seen' := seen[ps[0].1 := ps[0].0];
      DupsFromCount(ps[1..], seen');
      NewNamesStep(ps, seen);
      NewNamesBound(ps[1..], seen');
    }
  }

  /** No duplicate messages iff all api names differ (and none was seen before). */
  lemma {:induction false} DupsFromEmpty(ps: seq<(string, string)>, seen: map<string, string>)
    ensures DupsFrom(ps, seen) == [] <==>
      (forall i :: 0 <= i < |ps| ==> ps[i].1 !in seen) && forall i, j :: 0 <= i < j < |ps| ==> ps[i].1 != ps[j].1
    decreases |ps|
  {
    if |ps| > 0 {
      var rest := ps[1..];
      var seen' := seen[ps[0].1 := ps[0].0];
      DupsFromEmpty(rest, seen');
      assert forall i :: 0 <= i < |rest| ==> rest[i] == ps[i + 1];
      if DupsFrom(ps, seen) == [] {
        assert ps[0].1 !in seen;
        forall i, j | 0 <= i < j < |ps| ensures ps[i].1 != ps[j].1 {
          if i > 0 {
            assert rest[i - 1] == ps[i] && rest[j - 1] == ps[j];
          } else {
            assert rest[j - 1] == ps[j];
          }
        }
      }
    }
  }

  /** The `(identifier, api_name)` pairs of the models of `ids`, in order, as the duplicate check walks them. */
  function ApiPairs(ids: seq<string>, models: map<string, ModelInfo>): (ps: seq<(string, string)>)
    requires forall id :: id in ids ==> id in models
    ensures |ps| == |ids|
  {
    seq(|ids|, i requires 0 <= i < |ids| => (models[ids[i]].Identifier(), models[ids[i]].apiName))
  }

  /** Both issue lists of a prefix grow by at most the next identifier. */
  lemma MissingStep(ids: seq<string>, k: nat, models: map<string, ModelInfo>)
    requires k < |ids|
    ensures MissingModels(ids[..k + 1], models) ==
      MissingModels(ids[..k], models) + (if ids[k] !in models then [ids[k]] else [])
    ensures MissingApiKeys(ids[..k + 1], models) ==
      MissingApiKeys(ids[..k], models) + (if ids[k] in models && !Given(models[ids[k]].apiKey) then [ids[k]] else [])
  {
    assert ids[..k + 1][..k] == ids[..k];
  }

  /** The six identifiers of the provider at position `pi` sit at positions `6 * pi` to `6 * pi + 5`. */
  lemma ProviderRow(pi: nat)
    requires pi < 4
    ensures forall si :: 0 <= si < 6 ==> ExpectedIds()[6 * pi + si] == IdentifierOf(Providers[pi], Sizes[si])
  {
    forall si | 0 <= si < 6
      ensures ExpectedIds()[6 * pi + si] == IdentifierOf(Providers[pi], Sizes[si])
    {
      ExpectedIdAt(pi, si, IdentifierOf(Providers[pi], Sizes[si]));
    }
  }

  /** `f"{provider.value}_{size.value}"` for the provider at `pi` and the size at `si`: the identifier at `ids[6 * pi + si]`. */
  method IdentifierAt(ids: seq<string>, pi: nat, si: nat) returns (id: string)
    requires pi < 4 && si < 6 && |ids| == 24
    requires forall j :: 0 <= j < 6 ==> ids[6 * pi + j] == IdentifierOf(Providers[pi], Sizes[j])
    ensures id == ids[6 * pi + si]
  {
    id := ProviderName(Providers[pi]) + "_" + SizeName(Sizes[si]);
  }

  /**
   * The inner loop of `validate`'s first loop: every size of the provider at
   * position `pi`, whose identifiers sit at `ids[6 * pi..6 * pi + 6]`.
   */
  method CheckProvider(models: map<string, ModelInfo>, ids: seq<string>, pi: nat, missing0: seq<string>, noKey0: seq<string>)
    returns (missing: seq<string>, noKey: seq<string>)
    requires pi < 4 && ids == ExpectedIds()
    requires missing0 == MissingModels(ids[..6 * pi], models)
    requires noKey0 == MissingApiKeys(ids[..6 * pi], models)
    ensures missing == MissingModels(ids[..6 * pi + 6], models)
    ensures noKey == MissingApiKeys(ids[..6 * pi + 6], models)
  {
    ProviderRow(pi);
    missing, noKey := missing0, noKey0;
    var si := 0;
    while si < 6
      invariant 0 <= si <= 6
      invariant missing == MissingModels(ids[..6 * pi + si], models)
      invariant noKey == MissingApiKeys(ids[..6 * pi + si], models)
    {
      var id := IdentifierAt(ids, pi, si);
      MissingStep(ids, 6 * pi + si, models);
      if id !in models {
        missing := missing + [id];
      } else if !Given(models[id].apiKey) {
        noKey := noKey + [id];
      }
      si := si + 1;
    }
  }

  /** The first loop of `validate`: every provider, then every size, each identifier sorted into at most one list. */
  method CheckExpected(models: map<string, ModelInfo>) returns (missing: seq<string>, noKey: seq<string>)
    ensures missing == MissingModels(ExpectedIds(), models)
    ensures noKey == MissingApiKeys(ExpectedIds(), models)
  {
    var ids := ExpectedIds();
    missing, noKey := [], [];
    var pi := 0;
    while pi < 4
      invariant 0 <= pi <= 4
      invariant missing == MissingModels(ids[..6 * pi], models)
      invariant noKey == MissingApiKeys(ids[..6 * pi], models)
    {
      missing, noKey := CheckProvider(models, ids, pi, missing, noKey);
      pi := pi + 1;
    }
    assert ids[..24] == ids;
  }

  /** The second loop of `validate`: one message for each model whose api name an earlier model used. */
  method FindDuplicates(ps: seq<(string, string)>) returns (dups: seq<string>)
    ensures dups == DupsFrom(ps, map[])
  {
    dups := [];
    var seen: map<string, string> := map[];
    var k := 0;
    while k < |ps|
      invariant 0 <= k <= |ps|
      invariant dups + DupsFrom(ps[k..], seen) == DupsFrom(ps, map[])
    {
      var (id, api) := ps[k];
      assert ps[k..][1..] == ps[k + 1..];
      if api in seen {
        dups := dups + [id + " and " + seen[api] + " both use " + api];
      }
      seen := seen[api := id];
      k := k + 1;
    }
  }

  /** `{k: v for k, v in issues.items() if v}` over the three issue lists. */
  function NonEmptyIssues(missing: seq<string>, noKey: seq<string>, dups: seq<string>): (r: map<string, seq<string>>)
    ensures r.Keys <= {"missing_models", "missing_api_keys", "duplicate_models"}
    ensures forall k :: k in r ==> |r[k]| > 0
    ensures ("missing_models" in r <==> |missing| > 0) && ("missing_models" in r ==> r["missing_models"] == missing)
    ensures ("missing_api_keys" in r <==> |noKey| > 0) && ("missing_api_keys" in r ==> r["missing_api_keys"] == noKey)
    ensures ("duplicate_models" in r <==> |dups| > 0) && ("duplicate_models" in r ==> r["duplicate_models"] == dups)
  {
    var r0: map<string, seq<string>> := map[];
    var r1 := if |missing| > 0 then r0["missing_models" := missing] else r0;
    var r2 := if |noKey| > 0 then r1["missing_api_keys" := noKey] else r1;
    if |dups| > 0 then r2["duplicate_models" := dups] else r2
  }

  class Registry {
    /** `self.models`, with its insertion order kept beside it (Python dicts iterate in insertion order). */
    var models: map<string, ModelInfo>
    var order: seq<string>

    /** Every model sits under its own identifier; `order` lists each key once. */
    predicate Valid()
      reads this
    {
      ValidModels(models, order)
    }

    /** `__init__`: the models `_load_from_environment` finds. */
    constructor(env: seq<(string, string)>)
      ensures Valid()
      ensures order == LoadOrder(env)
      ensures AllLoaded(models, LoadedNames(env), env)
      ensures forall id :: id in models ==> models[id].Configured()
    {
      var ms, ord := LoadFromEnvironment(env);
      models, order := ms, ord;
    }

    /** `get`: the model stored under the identifier, if any. */
    function Get(identifier: string): (r: Option<ModelInfo>)
      requires Valid()
      reads this
      ensures r.Some? <==> identifier in models
      ensures r.Some? ==> r.value.Identifier() == identifier && r.value == models[identifier]
    {
      if identifier in models then Some(models[identifier]) else None
    }

    /** `get_by_api_name`: the first model, in insertion order, with that api name. */
    method GetByApiName(apiName: string) returns (r: Option<ModelInfo>)
      requires Valid()
      ensures r.Some? ==> exists k :: (0 <= k < |order| && r.value == models[order[k]] && r.value.apiName == apiName
        && forall j :: 0 <= j < k ==> models[order[j]].apiName != apiName)
      ensures r.None? <==> forall id :: id in models ==> models[id].apiName != apiName
    {
      var k := 0;
      while k < |order|
        invariant 0 <= k <= |order|
        invariant forall j :: 0 <= j < k ==> models[order[j]].apiName != apiName
      {
        var model := models[order[k]];
        if model.apiName == apiName {
          return Some(model);
        }
        k := k + 1;
      }
      forall id | id in models ensures models[id].apiName != apiName {
        var j :| 0 <= j < |order| && order[j] == id;
      }
      return None;
    }

    /** `list_models`: the models, in insertion order, that match every given filter. */
    function ListModels(provider: Option<Provider>, size: Option<Size>): (r: seq<ModelInfo>)
      requires Valid()
      reads this
      ensures |r| <= |models|
      ensures |r| == CountMatching(order, models, provider, size)
      ensures forall m :: m in r ==> Matches(m, provider, size) && m in models.Values
      ensures forall i :: 0 <= i < |order| && Matches(models[order[i]], provider, size) ==>
        CountMatching(order[..i], models, provider, size) < |r|
        && r[CountMatching(order[..i], models, provider, size)] == models[order[i]]
      ensures forall id :: id in models && Matches(models[id], provider, size) ==> models[id] in r
    {
      NoDupsCard(order);
      var r := Select(order, models, provider, size);
      assert forall id :: id in models && Matches(models[id], provider, size) ==> models[id] in r by {
        forall id | id in models && Matches(models[id], provider, size) ensures models[id] in r {
          var k :| 0 <= k < |order| && order[k] == id;
        }
      }
      r
    }

    /**
     * `validate`: which expected models are missing, which have no api key,
     * and which api names are used twice; only non-empty categories are kept.
     */
    method Validate() returns (r: map<string, seq<string>>)
      requires Valid()
      ensures r.Keys <= {"missing_models", "missing_api_keys", "duplicate_models"}
      ensures forall k :: k in r ==> |r[k]| > 0
      ensures ("missing_models" in r <==> |MissingModels(ExpectedIds(), models)| > 0)
        && ("missing_models" in r ==> r["missing_models"] == MissingModels(ExpectedIds(), models))
      ensures ("missing_api_keys" in r <==> |MissingApiKeys(ExpectedIds(), models)| > 0)
        && ("missing_api_keys" in r ==> r["missing_api_keys"] == MissingApiKeys(ExpectedIds(), models))
      ensures ("duplicate_models" in r <==> |DupsFrom(ApiPairs(order, models), map[])| > 0)
        && ("duplicate_models" in r ==> r["duplicate_models"] == DupsFrom(ApiPairs(order, models), map[]))
    {
      var missing, noKey := CheckExpected(models);
      var dups := FindDuplicates(ApiPairs(order, models));
      r := NonEmptyIssues(missing, noKey, dups);
    }
  }
}
