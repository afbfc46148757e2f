// The parameter table (`Parametro`: key and value): reading a parameter
// creates it with the default on first use, reading under several keys
// takes the first that exists, and the legacy application seeds four
// defaults at start-up.

module Params {
  import opened Common

  datatype ParamError =
    | Missing(key: string)      // `get_param` without default on a missing key
    | NoKeys                    // `_read_param_any` with an empty key list
    | NoneOf(keys: seq<string>) // `_read_param_any` without default, no key present

  /** `get_param`: the value read and the table afterwards. */
  function GetParamSpec(store: map<string, real>, key: string, default: Option<real>): (Result<real, ParamError>, map<string, real>)
  {
    if key in store then (Ok(store[key]), store)
    else if default.None? then (Err(Missing(key)), store)
    else (Ok(default.value), store[key := default.value])
  }

  /** The first position from `i` on whose key the table holds. */
  function FirstPresentFrom(store: map<string, real>, keys: seq<string>, i: nat): (r: Option<nat>)
    decreases |keys| - i
    ensures r.Some? ==> i <= r.value < |keys| && keys[r.value] in store
    ensures r.Some? ==> forall j :: i <= j < r.value ==> keys[j] !in store
    ensures r.None? ==> forall j :: i <= j < |keys| ==> keys[j] !in store
  {
    if |keys| <= i then None
    else if keys[i] in store then Some(i)
    else FirstPresentFrom(store, keys, i + 1)
  }

  /** `_read_param_any`: the value read and the table afterwards. */
  function ReadAnySpec(store: map<string, real>, keys: seq<string>, default: Option<real>): (Result<real, ParamError>, map<string, real>)
  {
    if keys == [] then (Err(NoKeys), store)
    else
      match FirstPresentFrom(store, keys, 0)
      case Some(i) => (Ok(store[keys[i]]), store)
      case None =>
        if default.None? then (Err(NoneOf(keys)), store)
        else (Ok(default.value), store[keys[0] := default.value])
  }

  /** `get_param(key, default)` with a default: the value read and the table afterwards. */
  function GetParamOr(store: map<string, real>, key: string, default: real): (r: (real, map<string, real>))
    ensures r.0 == (if key in store then store[key] else default)
    ensures r.1 == store[key := r.0]
  {
    var (res, after) := GetParamSpec(store, key, Some(default));
    (if res.Ok? then res.value else default, after)
  }

  /**
   * `get_param` returns a stored value and changes nothing; on a missing key
   * it fails without a default and otherwise stores and returns the default,
   * touching no other key.
   */
  lemma GetParamFacts(store: map<string, real>, key: string, default: Option<real>)
    ensures var (r, after) := GetParamSpec(store, key, default);
            (key in store ==> r == Ok(store[key]) && after == store)
            && (key !in store && default.None? ==> r.Err? && after == store)
            && (key !in store && default.Some? ==> r == Ok(default.value) && after.Keys == store.Keys + {key})
            && (r.Ok? ==> key in after && after[key] == r.value)
            && (forall k :: k in store ==> k in after && after[k] == store[k])
  {
  }

  /** Once a read has succeeded, reading again gives the same value and changes nothing. */
  lemma GetParamStable(store: map<string, real>, key: string, default: Option<real>, default2: Option<real>)
    ensures var (r, after) := GetParamSpec(store, key, default);
            r.Ok? ==> GetParamSpec(after, key, default2) == (r, after)
  {
  }

  /**
   * `_read_param_any` returns the value of the first listed key present and
   * changes nothing; when none is present it creates only the first key,
   * and only when a default is given.
   */
  lemma ReadAnyFacts(store: map<string, real>, keys: seq<string>, default: Option<real>)
    ensures keys == [] ==> ReadAnySpec(store, keys, default) == (Err(NoKeys), store)
    ensures forall i :: 0 <= i < |keys| && keys[i] in store && (forall j :: 0 <= j < i ==> keys[j] !in store)
              ==> ReadAnySpec(store, keys, default) == (Ok(store[keys[i]]), store)
    ensures var (r, after) := ReadAnySpec(store, keys, default);
            after != store ==> keys != [] && default.Some? && r == Ok(default.value)
                               && (forall j :: 0 <= j < |keys| ==> keys[j] !in store)
                               && after == store[keys[0] := default.value]
  {
    forall i | 0 <= i < |keys| && keys[i] in store && (forall j :: 0 <= j < i ==> keys[j] !in store)
      ensures ReadAnySpec(store, keys, default) == (Ok(store[keys[i]]), store)
    {
      var f := FirstPresentFrom(store, keys, 0);
      assert f.Some?;
      assert f.value == i;
    }
  }

  /** Reading under a single key is `get_param` on that key, up to the error reported. */
  lemma ReadAnySingleKey(store: map<string, real>, key: string, default: Option<real>)
    ensures ReadAnySpec(store, [key], default).1 == GetParamSpec(store, key, default).1
    ensures ReadAnySpec(store, [key], default).0.Ok? <==> GetParamSpec(store, key, default).0.Ok?
    ensures ReadAnySpec(store, [key], default).0.Ok?
            ==> ReadAnySpec(store, [key], default).0.value == GetParamSpec(store, key, default).0.value
  {
    if key in store {
      var f := FirstPresentFrom(store, [key], 0);
      assert f == Some(0);
    }
  }

  /** Once `_read_param_any` has succeeded, reading again gives the same value and changes nothing. */
  lemma ReadAnyStable(store: map<string, real>, keys: seq<string>, default: Option<real>, default2: Option<real>)
    ensures var (r, after) := ReadAnySpec(store, keys, default);
            r.Ok? ==> ReadAnySpec(after, keys, default2) == (r, after)
  {
    var (r, after) := ReadAnySpec(store, keys, default);
    if r.Ok? {
      var f := FirstPresentFrom(store, keys, 0);
      if f.Some? {
        var g := FirstPresentFrom(after, keys, 0);
        assert keys[f.value] in after;
        assert g.Some? && g.value == f.value;
      } else {
        var g := FirstPresentFrom(after, keys, 0);
        assert keys[0] in after;
        assert g == Some(0);
      }
    }
  }

  /** The parameters the legacy application creates at start-up when missing, in order. */
  const StartupDefaults: seq<(string, real)> :=
    [("margen_Empresa", 0.53), ("margen_Vendedor", 0.20), ("margen_Socio", 0.09), ("nombre_socio_obligatorio", 1.0)]

  /** The keys a list of defaults names. */
  function KeysOf(defaults: seq<(string, real)>): (r: set<string>)
    ensures forall i :: 0 <= i < |defaults| ==> defaults[i].0 in r
  {
    if defaults == [] then {} else {defaults[0].0} + KeysOf(defaults[1..])
  }

  /** The table after adding each listed key that is missing with its value. */
  function SeedSpec(store: map<string, real>, defaults: seq<(string, real)>): map<string, real>
    decreases |defaults|
  {
    if defaults == [] then store
    else
      var (k, v) := defaults[0];
      SeedSpec(if k in store then store else store[k := v], defaults[1..])
  }

  /**
   * After seeding every listed key exists; a key that was present keeps its
   * value, a missing one gets the first value listed for it, and no other key appears.
   */
  lemma {:induction false} SeedFacts(store: map<string, real>, defaults: seq<(string, real)>)
    ensures SeedSpec(store, defaults).Keys == store.Keys + KeysOf(defaults)
    ensures forall k :: k in store ==> SeedSpec(store, defaults)[k] == store[k]
    ensures forall i :: 0 <= i < |defaults| && defaults[i].0 !in store
              && (forall j :: 0 <= j < i ==> defaults[j].0 != defaults[i].0)
              ==> defaults[i].0 in SeedSpec(store, defaults) && SeedSpec(store, defaults)[defaults[i].0] == defaults[i].1
    decreases |defaults|
  {
    if defaults != [] {
      var (k, v) := defaults[0];
      var next := if k in store then store else store[k := v];
      var rest := defaults[1..];
      SeedFacts(next, rest);
      var s := SeedSpec(store, defaults);
      assert s == SeedSpec(next, rest);
      forall i | 0 <= i < |defaults| && defaults[i].0 !in store
        && (forall j :: 0 <= j < i ==> defaults[j].0 != defaults[i].0)
        ensures defaults[i].0 in s && s[defaults[i].0] == defaults[i].1
      {
        if i > 0 {
          assert rest[i - 1] == defaults[i];
          assert defaults[i].0 != k;
          assert forall j :: 0 <= j < i - 1 ==> rest[j].0 != rest[i - 1].0 by {
            forall j | 0 <= j < i - 1 ensures rest[j].0 != rest[i - 1].0 {
              assert rest[j] == defaults[j + 1];
            }
          }
        }
      }
    }
  }

  /** After the legacy start-up, the four margins and the partner-name flag all exist. */
  lemma StartupSeeds(store: map<string, real>)
    ensures var after := SeedSpec(store, StartupDefaults);
            "margen_Empresa" in after && "margen_Vendedor" in after
            && "margen_Socio" in after && "nombre_socio_obligatorio" in after
            && ("margen_Empresa" !in store ==> after["margen_Empresa"] == 0.53)
            && ("margen_Vendedor" !in store ==> after["margen_Vendedor"] == 0.20)
            && ("margen_Socio" !in store ==> after["margen_Socio"] == 0.09)
            && ("nombre_socio_obligatorio" !in store ==> after["nombre_socio_obligatorio"] == 1.0)
            && (forall k :: k in store ==> k in after && after[k] == store[k])
  {
    SeedFacts(store, StartupDefaults);
    var d := StartupDefaults;
    assert KeysOf(d) == {d[0].0, d[1].0, d[2].0, d[3].0} by {
      assert d[1..][1..][1..][1..] == [];
    }
  }

  /** The parameter table as the application reads and updates it. */
  class ParamStore {
    var values: map<string, real>

    constructor (initial: map<string, real>)
      ensures values == initial
    {
      values := initial;
    }

    /** `get_param` */
    method GetParam(key: string, default: Option<real>) returns (r: Result<real, ParamError>)
      modifies this
      ensures (r, values) == GetParamSpec(old(values), key, default)
    {
      if key in values {
        r := Ok(values[key]);
      } else if default.None? {
        r := Err(Missing(key));
      } else {
        values := values[key := default.value];
        r := Ok(default.value);
      }
    }

    /** `_read_param_any`: tries the keys in order. */
    method ReadParamAny(keys: seq<string>, default: Option<real>) returns (r: Result<real, ParamError>)
      modifies this
      ensures (r, values) == ReadAnySpec(old(values), keys, default)
    {
      if keys == [] {
        return Err(NoKeys);
      }
      var i := 0;
      while i < |keys|
        invariant 0 <= i <= |keys|
        invariant values == old(values)
        invariant FirstPresentFrom(values, keys, 0) == FirstPresentFrom(values, keys, i)
      {
        if keys[i] in values {
          return Ok(values[keys[i]]);
        }
        i := i + 1;
      }
      if default.Some? {
        values := values[keys[0] := default.value];
        return Ok(default.value);
      }
      return Err(NoneOf(keys));
    }

    /** The legacy start-up: each of the four parameters is added when missing. */
    method SeedStartupDefaults()
      modifies this
      ensures values == SeedSpec(old(values), StartupDefaults)
    {
      ghost var d := StartupDefaults;
      ghost var v0 := values;
      if "margen_Empresa" !in values {
        values := values["margen_Empresa" := 0.53];
      }
      assert SeedSpec(v0, d) == SeedSpec(values, d[1..]);
      ghost var v1 := values;
      if "margen_Vendedor" !in values {
        values := values["margen_Vendedor" := 0.20];
      }
      assert SeedSpec(v1, d[1..]) == SeedSpec(values, d[2..]);
      ghost var v2 := values;
      if "margen_Socio" !in values {
        values := values["margen_Socio" := 0.09];
      }
      assert SeedSpec(v2, d[2..]) == SeedSpec(values, d[3..]);
      ghost var v3 := values;
      if "nombre_socio_obligatorio" !in values {
        values := values["nombre_socio_obligatorio" := 1.0];
      }
      assert SeedSpec(v3, d[3..]) == SeedSpec(values, d[4..]);
      assert d[4..] == [];
    }
  }
}
