/** The method factory: a registry from method key to feature type to
    implementation, filled by the registration decorators and read by
    `create`. */
module Registry {
  import opened Wrappers
  import opened MethodBase

  type Registry = map<string, map<FeatureType, MethodKind>>

  /** The registry holds an implementation for (key, ft). */
  predicate Has(reg: Registry, key: string, ft: FeatureType) {
    key in reg && ft in reg[key]
  }

  /** The registry after registering `kind` under (key, ft). */
  function Registered(reg: Registry, key: string, ft: FeatureType, kind: MethodKind): (r: Registry)
    ensures Has(r, key, ft) && r[key][ft] == kind
    ensures forall k, f :: (k != key || f != ft) ==> (Has(r, k, f) <==> Has(reg, k, f))
    ensures forall k, f :: (k != key || f != ft) && k in reg && f in reg[k] ==>
      k in r && f in r[k] && r[k][f] == reg[k][f]
  {
    if key !in reg then reg[key := map[ft := kind]]
    else reg[key := reg[key][ft := kind]]
  }

  /** Registering twice under one pair keeps only the second registration. */
  lemma RegisteredOverwrites(reg: Registry, key: string, ft: FeatureType, first: MethodKind, second: MethodKind)
    ensures Registered(Registered(reg, key, ft, first), key, ft, second) == Registered(reg, key, ft, second)
  {
    var a := Registered(Registered(reg, key, ft, first), key, ft, second);
    var b := Registered(reg, key, ft, second);
    assert a.Keys == b.Keys;
    forall k | k in a
      ensures a[k] == b[k]
    {
      assert a[k].Keys == b[k].Keys;
    }
  }

  /** The key handed to `create`, which the caller may not have made a
      string; `typeRepr` is the printed `type(key)`. */
  datatype Key = StrKey(s: string) | NonStrKey(typeRepr: string)

  /** `FeatureType.value`. */
  function FeatureTypeValue(ft: FeatureType): string {
    match ft
    case Continuous => "continuous"
    case Categorical => "categorical"
  }

  /** The error messages of `create`. */
  function NonStringKeyMessage(typeRepr: string): string {
    "cannot create method given a '" + typeRepr + "'. Please provide a string."
  }

  const KnownKeys := "['kolmogorov_smirnov', 'jensen_shannon', 'wasserstein', 'chi2', 'jensen_shannon', 'l_infinity', 'hellinger']"

  function UnknownKeyMessage(key: string): string {
    "unknown method key '" + key + "' given. Should be one of " + KnownKeys + "."
  }

  function UnsupportedMessage(key: string, ft: FeatureType): string {
    "method " + key + " does not support " + FeatureTypeValue(ft) + " features."
  }

  /** `create`'s dispatch: the registered implementation, or one of its
      three InvalidArguments errors, checked in order. */
  function Resolve(reg: Registry, key: Key, ft: FeatureType): (r: Result<MethodKind>)
    ensures r.Ok? <==> key.StrKey? && Has(reg, key.s, ft)
    ensures r.Ok? ==> r.value == reg[key.s][ft]
    ensures key.NonStrKey? ==> r == Err(InvalidArguments(NonStringKeyMessage(key.typeRepr)))
    ensures key.StrKey? && key.s !in reg ==> r == Err(InvalidArguments(UnknownKeyMessage(key.s)))
    ensures key.StrKey? && key.s in reg && ft !in reg[key.s] ==>
      r == Err(InvalidArguments(UnsupportedMessage(key.s, ft)))
  {
    match key
    case NonStrKey(t) => Err(InvalidArguments(NonStringKeyMessage(t)))
    case StrKey(s) =>
      if s !in reg then Err(InvalidArguments(UnknownKeyMessage(s)))
      else if ft !in reg[s] then Err(InvalidArguments(UnsupportedMessage(s, ft)))
      else Ok(reg[s][ft])
  }

  /** What `create` returns right after a registration is what was registered. */
  lemma ResolveRegistered(reg: Registry, key: string, ft: FeatureType, kind: MethodKind)
    ensures Resolve(Registered(reg, key, ft, kind), StrKey(key), ft) == Ok(kind)
  {
  }

  /** The registrations made by the decorators on the six method classes,
      bottom decorator first. */
  const Registrations: seq<(string, FeatureType, MethodKind)> := [
    ("jensen_shannon", Categorical, JensenShannon),
    ("jensen_shannon", Continuous, JensenShannon),
    ("kolmogorov_smirnov", Continuous, KolmogorovSmirnov),
    ("chi2", Categorical, Chi2),
    ("l_infinity", Categorical, LInfinity),
    ("wasserstein", Continuous, Wasserstein),
    ("hellinger", Categorical, Hellinger),
    ("hellinger", Continuous, Hellinger)
  ]

  function RegisterAll(reg: Registry, regs: seq<(string, FeatureType, MethodKind)>): Registry {
    if regs == [] then reg
    else
      var (k, f, c) := regs[|regs| - 1];
      Registered(RegisterAll(reg, regs[..|regs| - 1]), k, f, c)
  }

  /** The registry once the module is imported. */
  function Builtin(): Registry {
    RegisterAll(map[], Registrations)
  }

  /** The registry after the first n decorator registrations. */
  function Prefix(n: nat): Registry
    requires n <= |Registrations|
  {
    RegisterAll(map[], Registrations[..n])
  }

  lemma PrefixAfter1()
    ensures Prefix(1) == map["jensen_shannon" := map[Categorical := JensenShannon]]
  {
    assert Registrations[..1][..0] == [];
    assert Registrations[..1][0] == ("jensen_shannon", Categorical, JensenShannon);
    assert RegisterAll(map[], Registrations[..1][..0]) == map[];
    assert Prefix(1) == Registered(map[], "jensen_shannon", Categorical, JensenShannon);
  }

  lemma PrefixAfter2()
    ensures Prefix(2) == map["jensen_shannon" := map[Categorical := JensenShannon, Continuous := JensenShannon]]
  {
    PrefixAfter1();
    assert Registrations[..2][..1] == Registrations[..1];
  }

  lemma PrefixAfter3()
    ensures Prefix(3) == map["jensen_shannon" := map[Categorical := JensenShannon, Continuous := JensenShannon], "kolmogorov_smirnov" := map[Continuous := KolmogorovSmirnov]]
  {
    PrefixAfter2();
    assert Registrations[..3][..2] == Registrations[..2];
  }

  lemma PrefixAfter4()
    ensures Prefix(4) == map["jensen_shannon" := map[Categorical := JensenShannon, Continuous := JensenShannon], "kolmogorov_smirnov" := map[Continuous := KolmogorovSmirnov], "chi2" := map[Categorical := Chi2]]
  {
    PrefixAfter3();
    assert Registrations[..4][..3] == Registrations[..3];
  }

  lemma PrefixAfter5()
    ensures Prefix(5) == map["jensen_shannon" := map[Categorical := JensenShannon, Continuous := JensenShannon], "kolmogorov_smirnov" := map[Continuous := KolmogorovSmirnov], "chi2" := map[Categorical := Chi2], "l_infinity" := map[Categorical := LInfinity]]
  {
    PrefixAfter4();
    assert Registrations[..5][..4] == Registrations[..4];
  }

  lemma PrefixAfter6()
    ensures Prefix(6) == map["jensen_shannon" := map[Categorical := JensenShannon, Continuous := JensenShannon], "kolmogorov_smirnov" := map[Continuous := KolmogorovSmirnov], "chi2" := map[Categorical := Chi2], "l_infinity" := map[Categorical := LInfinity], "wasserstein" := map[Continuous := Wasserstein]]
  {
    PrefixAfter5();
    assert Registrations[..6][..5] == Registrations[..5];
  }

  lemma PrefixAfter7()
    ensures Prefix(7) == map["jensen_shannon" := map[Categorical := JensenShannon, Continuous := JensenShannon], "kolmogorov_smirnov" := map[Continuous := KolmogorovSmirnov], "chi2" := map[Categorical := Chi2], "l_infinity" := map[Categorical := LInfinity], "wasserstein" := map[Continuous := Wasserstein], "hellinger" := map[Categorical := Hellinger]]
  {
    PrefixAfter6();
    assert Registrations[..7][..6] == Registrations[..6];
  }

  lemma PrefixAfter8()
    ensures Prefix(8) == map["jensen_shannon" := map[Categorical := JensenShannon, Continuous := JensenShannon], "kolmogorov_smirnov" := map[Continuous := KolmogorovSmirnov], "chi2" := map[Categorical := Chi2], "l_infinity" := map[Categorical := LInfinity], "wasserstein" := map[Continuous := Wasserstein], "hellinger" := map[Categorical := Hellinger, Continuous := Hellinger]]
  {
    PrefixAfter7();
    assert Registrations[..8][..7] == Registrations[..7];
  }

  /** The built-in registry: JS and Hellinger take both feature types,
      KS and Wasserstein only continuous, chi2 and L-infinity only
      categorical, and nothing else is known. */
  lemma BuiltinContents()
    ensures Builtin() == map["jensen_shannon" := map[Categorical := JensenShannon, Continuous := JensenShannon], "kolmogorov_smirnov" := map[Continuous := KolmogorovSmirnov], "chi2" := map[Categorical := Chi2], "l_infinity" := map[Categorical := LInfinity], "wasserstein" := map[Continuous := Wasserstein], "hellinger" := map[Categorical := Hellinger, Continuous := Hellinger]]
  {
    PrefixAfter8();
    assert Registrations[..8] == Registrations;
  }

  /** A method key fed to the built-in factory with the wrong feature type. */
  lemma BuiltinRejectsUnsupported()
    ensures Resolve(Builtin(), StrKey("kolmogorov_smirnov"), Categorical).Err?
    ensures Resolve(Builtin(), StrKey("chi2"), Continuous).Err?
    ensures Resolve(Builtin(), StrKey("jensen_shannon"), Continuous) == Ok(JensenShannon)
  {
    BuiltinContents();
    var b := Builtin();
    assert "kolmogorov_smirnov" in b && Categorical !in b["kolmogorov_smirnov"];
    assert "chi2" in b && Continuous !in b["chi2"];
    assert "jensen_shannon" in b && Continuous in b["jensen_shannon"];
    assert b["jensen_shannon"][Continuous] == JensenShannon;
  }

  /** `MethodFactory`: the class-level registry and its two class methods. */
  class MethodFactory {
    var registry: Registry

    /** The factory as the method module leaves it on import. */
    constructor ()
      ensures registry == Builtin()
    {
      registry := Builtin();
    }

    /** `register(key, ft)(cls)`: adds or overwrites the entry, and warns
        exactly when it overwrites. */
    method Register(key: string, ft: FeatureType, kind: MethodKind) returns (warned: bool)
      modifies this
      ensures registry == Registered(old(registry), key, ft, kind)
      ensures warned <==> Has(old(registry), key, ft)
    {
      if key !in registry {
        registry := registry[key := map[ft := kind]];
        warned := false;
      } else if ft !in registry[key] {
        registry := registry[key := registry[key][ft := kind]];
        warned := false;
      } else {
        warned := true;
        registry := registry[key := registry[key][ft := kind]];
      }
    }

    /** `create(key, ft)`: the class to instantiate, or InvalidArguments. */
    function Create(key: Key, ft: FeatureType): (r: Result<MethodKind>)
      reads this
      ensures r.Ok? <==> key.StrKey? && Has(registry, key.s, ft)
      ensures r.Ok? ==> r.value == registry[key.s][ft]
    {
      Resolve(registry, key, ft)
    }
  }
}
