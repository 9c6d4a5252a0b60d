/** The OpenProject issue-provider form (`OpenProjectAdditionalCfgComponent`):
    how an incoming provider config is normalised against the default
    template, how one transition is changed, how a partial change is written
    into the stored config and announced, and when the "set progress on done"
    option is shown. A config is a JSON object: a map from field names to JSON
    values. */
module OpenProjectCfg {
  import opened JsArray

  /** JSON values (numbers are integers here). */
  datatype Json =
    | JNull
    | JBool(b: bool)
    | JNum(n: int)
    | JStr(s: string)
    | JArr(items: seq<Json>)
    | JObj(fields: map<string, Json>)

  /** An `IssueProviderOpenProject` object: its own fields by name. */
  type Cfg = map<string, Json>

  const TRANSITION_CONFIG: string := "transitionConfig"
  const AVAILABLE_TRANSITIONS: string := "availableTransitions"
  const IS_SET_PROGRESS_ON_TASK_DONE: string := "isSetProgressOnTaskDone"
  const DONE: string := "DONE"
  const ALWAYS_ASK: Json := JStr("ALWAYS_ASK")
  const DO_NOT: Json := JStr("DO_NOT")

  /** JavaScript truthiness of a JSON value: `null`, `false`, `0` and `""` are
      falsy; every array and object, empty or not, is truthy. */
  predicate Truthy(v: Json) {
    !(v == JNull || v == JBool(false) || v == JNum(0) || v == JStr(""))
  }

  /** The two parts of `DEFAULT_OPEN_PROJECT_CFG` the form falls back to. */
  datatype Defaults = Defaults(transitionConfig: map<string, Json>, availableTransitions: seq<Json>)

  /** One row of the transition table (`transitionConfigOpts`). */
  datatype TransitionOpt = TransitionOpt(key: string, val: Json)

  /** A datatype for calls that may throw. */
  datatype Result<+T> = Ok(value: T) | Err(error: string)

  /** What the declared type allows as an incoming config: a `transitionConfig`
      that is present and truthy is an object. */
  predicate IncomingWellTyped(cfg: Cfg) {
    TRANSITION_CONFIG in cfg && Truthy(cfg[TRANSITION_CONFIG]) ==> cfg[TRANSITION_CONFIG].JObj?
  }

  /** What the declared type allows in a partial change: a `transitionConfig`
      is an object, an `availableTransitions` is an array. */
  predicate PartialWellTyped(p: Cfg) {
    && (TRANSITION_CONFIG in p ==> p[TRANSITION_CONFIG].JObj?)
    && (AVAILABLE_TRANSITIONS in p ==> p[AVAILABLE_TRANSITIONS].JArr?)
  }

  /** A stored config after normalisation: its transition config is an object
      and its available transitions an array. */
  predicate StoredWellTyped(c: Cfg) {
    && TRANSITION_CONFIG in c && c[TRANSITION_CONFIG].JObj?
    && AVAILABLE_TRANSITIONS in c && c[AVAILABLE_TRANSITIONS].JArr?
  }

  /** A picked search result with a truthy `issueData.id`: anything else
      makes `updateTransitionOptions` throw, either reading `id` of a missing
      or null `issueData` or in `assertTruthy` (an `id` of a string, number
      or array is `undefined`). */
  predicate HasIssueId(item: Json) {
    && item.JObj? && "issueData" in item.fields
    && item.fields["issueData"].JObj? && "id" in item.fields["issueData"].fields
    && Truthy(item.fields["issueData"].fields["id"])
  }

  // ---------------------------------------------------------------------------
  // Normalisation of an incoming config (the `cfg` setter)

  /** The field names every plain JavaScript object inherits from
      `Object.prototype`. */
  const OBJECT_PROTOTYPE_KEYS: set<string> := {
    "constructor", "__proto__", "hasOwnProperty", "isPrototypeOf", "propertyIsEnumerable",
    "toLocaleString", "toString", "valueOf",
    "__defineGetter__", "__defineSetter__", "__lookupGetter__", "__lookupSetter__"
  }

  /** The cleanup as written: `key in template` also holds for the names the
      template object inherits, so transition keys with those names survive. */
  function CleanupAsWritten(tc: map<string, Json>, template: map<string, Json>): (r: map<string, Json>)
    ensures r.Keys == tc.Keys * (template.Keys + OBJECT_PROTOTYPE_KEYS)
    ensures forall k :: k in r ==> r[k] == tc[k]
  {
    map k | k in tc && (k in template || k in OBJECT_PROTOTYPE_KEYS) :: tc[k]
  }

  /** A transition config with a `toString` entry keeps it through the cleanup
      as written, although the template has no such key: the cleaned config is
      then not within the template. */
  lemma CleanupAsWrittenKeepsInheritedNames(tc: map<string, Json>, template: map<string, Json>)
    requires "toString" in tc && "toString" !in template
    ensures "toString" in CleanupAsWritten(tc, template)
    ensures !(CleanupAsWritten(tc, template).Keys <= template.Keys)
  {
  }

  /** The cleanup loop of the setter, with the evident intent: every key of
      `tc` that is not one of the template's own keys is deleted, the others
      keep their values. */
  method StripUnknownKeys(tc: map<string, Json>, template: set<string>) returns (r: map<string, Json>)
    ensures r.Keys == tc.Keys * template
    ensures forall k :: k in r ==> r[k] == tc[k]
  {
    r := tc;
    var keys := tc.Keys;
    while keys != {}
      invariant keys <= tc.Keys
      invariant r.Keys == keys + tc.Keys * template
      invariant forall k :: k in r ==> r[k] == tc[k]
      decreases keys
    {
      var key :| key in keys;
      if key !in template {
        r := r - {key};
      }
      keys := keys - {key};
    }
  }

  /** The config the setter stores for an incoming `cfg`: a falsy or missing
      `transitionConfig` becomes the default one, a present one keeps only
      the template's keys with their values; an `availableTransitions` that
      is not an array becomes the default one; every other field is copied. */
  function Normalise(cfg: Cfg, d: Defaults): (r: Cfg)
    requires IncomingWellTyped(cfg)
    ensures StoredWellTyped(r)
    ensures r.Keys == cfg.Keys + {TRANSITION_CONFIG, AVAILABLE_TRANSITIONS}
    ensures forall k :: k in cfg && k != TRANSITION_CONFIG && k != AVAILABLE_TRANSITIONS ==> r[k] == cfg[k]
    ensures r[TRANSITION_CONFIG].fields.Keys <= d.transitionConfig.Keys
    ensures !(TRANSITION_CONFIG in cfg && Truthy(cfg[TRANSITION_CONFIG])) ==>
              r[TRANSITION_CONFIG] == JObj(d.transitionConfig)
    ensures TRANSITION_CONFIG in cfg && Truthy(cfg[TRANSITION_CONFIG]) ==>
              && r[TRANSITION_CONFIG].fields.Keys == cfg[TRANSITION_CONFIG].fields.Keys * d.transitionConfig.Keys
              && forall k :: k in r[TRANSITION_CONFIG].fields ==>
                   r[TRANSITION_CONFIG].fields[k] == cfg[TRANSITION_CONFIG].fields[k]
    ensures AVAILABLE_TRANSITIONS in cfg && cfg[AVAILABLE_TRANSITIONS].JArr? ==>
              r[AVAILABLE_TRANSITIONS] == cfg[AVAILABLE_TRANSITIONS]
    ensures !(AVAILABLE_TRANSITIONS in cfg && cfg[AVAILABLE_TRANSITIONS].JArr?) ==>
              r[AVAILABLE_TRANSITIONS] == JArr(d.availableTransitions)
  {
    var tc :=
      if TRANSITION_CONFIG in cfg && Truthy(cfg[TRANSITION_CONFIG]) then
        var given := cfg[TRANSITION_CONFIG].fields;
        JObj(map k | k in given && k in d.transitionConfig :: given[k])
      else JObj(d.transitionConfig);
    var at :=
      if AVAILABLE_TRANSITIONS in cfg && cfg[AVAILABLE_TRANSITIONS].JArr? then cfg[AVAILABLE_TRANSITIONS]
      else JArr(d.availableTransitions);
    cfg[TRANSITION_CONFIG := tc][AVAILABLE_TRANSITIONS := at]
  }

  /** Normalising a normalised config changes nothing, so a config the form
      stored and handed out comes back unchanged through the setter. */
  lemma NormaliseIdempotent(cfg: Cfg, d: Defaults)
    requires IncomingWellTyped(cfg)
    ensures IncomingWellTyped(Normalise(cfg, d))
    ensures Normalise(Normalise(cfg, d), d) == Normalise(cfg, d)
  {
    var n := Normalise(cfg, d);
    var nn := Normalise(n, d);
    assert nn[TRANSITION_CONFIG] == n[TRANSITION_CONFIG] by {
      assert Truthy(n[TRANSITION_CONFIG]);
      assert nn[TRANSITION_CONFIG].fields == n[TRANSITION_CONFIG].fields;
    }
    assert nn.Keys == n.Keys;
  }

  /** `opts` lists `tc` exactly: each row names a key of `tc` with that key's
      value, no key has two rows, and every key of `tc` has a row. */
  ghost predicate OptsCover(opts: seq<TransitionOpt>, tc: map<string, Json>) {
    && (forall i :: 0 <= i < |opts| ==> opts[i].key in tc && opts[i].val == tc[opts[i].key])
    && (forall i, j :: 0 <= i < j < |opts| ==> opts[i].key != opts[j].key)
    && (forall k :: k in tc ==> exists i :: 0 <= i < |opts| && opts[i].key == k)
  }

  /** `Object.keys(tc).map(k => ({ key: k, val: tc[k] }))`: one row per key of
      `tc` (in an order the model leaves open). */
  method TransitionOptsOf(tc: map<string, Json>) returns (opts: seq<TransitionOpt>)
    ensures forall i :: 0 <= i < |opts| ==> opts[i].key in tc && opts[i].val == tc[opts[i].key]
    ensures forall i, j :: 0 <= i < j < |opts| ==> opts[i].key != opts[j].key
    ensures forall k :: k in tc ==> exists i :: 0 <= i < |opts| && opts[i].key == k
  {
    opts := [];
    var rest := tc.Keys;
    while rest != {}
      invariant rest <= tc.Keys
      invariant forall i :: 0 <= i < |opts| ==> opts[i].key in tc && opts[i].key !in rest && opts[i].val == tc[opts[i].key]
      invariant forall i, j :: 0 <= i < j < |opts| ==> opts[i].key != opts[j].key
      invariant forall k :: k in tc && k !in rest ==> exists i :: 0 <= i < |opts| && opts[i].key == k
      decreases rest
    {
      var k :| k in rest;
      ghost var prev := opts;
      opts := opts + [TransitionOpt(k, tc[k])];
      forall k' | k' in tc && k' !in rest - {k}
        ensures exists i :: 0 <= i < |opts| && opts[i].key == k'
      {
        if k' == k {
          assert opts[|prev|].key == k';
        } else {
          var i :| 0 <= i < |prev| && prev[i].key == k';
          assert opts[i].key == k';
        }
      }
      rest := rest - {k};
    }
  }

  // ---------------------------------------------------------------------------
  // The component

  class OpenProjectAdditionalCfgComponent {
    /** `DEFAULT_OPEN_PROJECT_CFG`'s transition template and transitions. */
    const defaults: Defaults
    /** `_cfg`, read by the `cfg` getter; `None` until the first config arrives. */
    var stored: Option<Cfg>
    /** The rows of the transition table. */
    var transitionConfigOpts: seq<TransitionOpt>
    /** Every config `modelChange` emitted, in order (`None` for `undefined`). */
    var emitted: seq<Option<Cfg>>
    /** The value of `issueSuggestionsCtrl` (an issue, a search string or `null`). */
    var issueSuggestionsValue: Json

    /** A stored config has the shape the setter gives it. */
    predicate Valid()
      reads this
    {
      stored.Some? ==> StoredWellTyped(stored.value)
    }

    constructor (defaults: Defaults)
      ensures Valid()
      ensures this.defaults == defaults
      ensures stored == None && transitionConfigOpts == [] && emitted == [] && issueSuggestionsValue == JNull
    {
      this.defaults := defaults;
      stored := None;
      transitionConfigOpts := [];
      emitted := [];
      issueSuggestionsValue := JNull;
    }

    /** The `cfg` setter: an incoming config equal to the stored one changes
        nothing; any other is normalised, stored, and its transition config
        listed in `transitionConfigOpts`. Nothing is emitted. */
    method SetCfg(cfg: Cfg)
      requires Valid() && IncomingWellTyped(cfg)
      modifies this
      ensures Valid()
      ensures old(stored) == Some(cfg) ==>
                stored == old(stored) && transitionConfigOpts == old(transitionConfigOpts)
      ensures old(stored) != Some(cfg) ==>
                && stored == Some(Normalise(cfg, defaults))
                && OptsCover(transitionConfigOpts, Normalise(cfg, defaults)[TRANSITION_CONFIG].fields)
      ensures emitted == old(emitted) && issueSuggestionsValue == old(issueSuggestionsValue)
    {
      var newCfg := cfg;
      if Some(newCfg) == stored {
        return;
      }
      if !(TRANSITION_CONFIG in newCfg && Truthy(newCfg[TRANSITION_CONFIG])) {
        newCfg := newCfg[TRANSITION_CONFIG := JObj(defaults.transitionConfig)];
      } else {
        var given := newCfg[TRANSITION_CONFIG].fields;
        var kept := StripUnknownKeys(given, defaults.transitionConfig.Keys);
        assert kept == map k | k in given && k in defaults.transitionConfig :: given[k];
        newCfg := newCfg[TRANSITION_CONFIG := JObj(kept)];
      }
      if !(AVAILABLE_TRANSITIONS in newCfg && newCfg[AVAILABLE_TRANSITIONS].JArr?) {
        newCfg := newCfg[AVAILABLE_TRANSITIONS := JArr(defaults.availableTransitions)];
      } else {
        assert newCfg == newCfg[AVAILABLE_TRANSITIONS := newCfg[AVAILABLE_TRANSITIONS]];
      }
      assert newCfg == Normalise(cfg, defaults);
      stored := Some(newCfg);
      transitionConfigOpts := TransitionOptsOf(newCfg[TRANSITION_CONFIG].fields);
    }

    /** `getTransition`: the stored option for `key` (`None` for a key the
        transition config lacks); throws while no config is stored. */
    function GetTransition(key: string): (r: Result<Option<Json>>)
      reads this
      requires Valid()
      ensures r.Err? <==> stored.None?
      ensures r.Ok? ==> (r.value.Some? <==> key in stored.value[TRANSITION_CONFIG].fields)
      ensures r.Ok? && r.value.Some? ==> r.value.value == stored.value[TRANSITION_CONFIG].fields[key]
    {
      if stored.None? then Err("Cannot read properties of undefined (reading 'transitionConfig')")
      else
        var tc := stored.value[TRANSITION_CONFIG].fields;
        Ok(if key in tc then Some(tc[key]) else None)
    }

    /** `showSetProgressOption`: shown only for `DONE`, and only when its
        option is neither `DO_NOT` nor `ALWAYS_ASK`. It reads the option first,
        so it throws for any key without a stored option (`undefined.valueOf()`
        or `null.valueOf()`), `DONE` or not. */
    function ShowSetProgressOption(key: string): (r: Result<bool>)
      reads this
      requires Valid()
      ensures r.Err? <==> stored.None? || key !in stored.value[TRANSITION_CONFIG].fields
                          || stored.value[TRANSITION_CONFIG].fields[key] == JNull
      ensures r.Ok? ==> (r.value <==> key == DONE && stored.value[TRANSITION_CONFIG].fields[DONE] != DO_NOT
                                      && stored.value[TRANSITION_CONFIG].fields[DONE] != ALWAYS_ASK)
    {
      match GetTransition(key)
      case Err(e) => Err(e)
      case Ok(None) => Err("Cannot read properties of undefined (reading 'valueOf')")
      case Ok(Some(option)) =>
        if option == JNull then Err("Cannot read properties of null (reading 'valueOf')")
        else Ok(key == DONE && option != DO_NOT && option != ALWAYS_ASK)
    }

    /** `partialModelChange`: every field of `p` overwrites the stored one,
        every other stored field stays, and the updated config is emitted
        once. With no config stored it throws on the first field; an empty
        `p` then emits `undefined`. */
    method PartialModelChange(p: Cfg) returns (r: Result<()>)
      requires Valid() && PartialWellTyped(p)
      modifies this
      ensures Valid()
      ensures old(stored).None? && p != map[] ==> r.Err? && unchanged(this)
      ensures old(stored).None? && p == map[] ==> r.Ok? && stored == None && emitted == old(emitted) + [None]
      ensures old(stored).Some? ==>
                && r.Ok?
                && stored.Some?
                && stored.value.Keys == old(stored).value.Keys + p.Keys
                && (forall k :: k in p ==> stored.value[k] == p[k])
                && (forall k :: k in old(stored).value && k !in p ==> stored.value[k] == old(stored).value[k])
                && emitted == old(emitted) + [stored]
      ensures transitionConfigOpts == old(transitionConfigOpts) && issueSuggestionsValue == old(issueSuggestionsValue)
    {
      if stored.None? {
        if p != map[] {
          return Err("Cannot set properties of undefined");
        }
      } else {
        var keys := p.Keys;
        while keys != {}
          invariant keys <= p.Keys
          invariant stored.Some? && StoredWellTyped(stored.value)
          invariant stored.value.Keys == old(stored).value.Keys + (p.Keys - keys)
          invariant forall k :: k in p && k !in keys ==> stored.value[k] == p[k]
          invariant forall k :: k in old(stored).value && k !in p.Keys - keys ==> stored.value[k] == old(stored).value[k]
          invariant emitted == old(emitted)
          invariant transitionConfigOpts == old(transitionConfigOpts) && issueSuggestionsValue == old(issueSuggestionsValue)
          decreases keys
        {
          var key :| key in keys;
          stored := Some(stored.value[key := p[key]]);
          keys := keys - {key};
        }
      }
      emitted := emitted + [stored];
      r := Ok(());
    }

    /** `setTransition`: sets the option of `key` to `value` and returns
        `value`; choosing `ALWAYS_ASK` or `DO_NOT` for `DONE` first switches
        `isSetProgressOnTaskDone` off (one emission), then the new transition
        config is written (a second emission). All other options stay; the
        transition table itself is left as it was. */
    method SetTransition(key: string, value: Json) returns (r: Result<Json>)
      requires Valid()
      modifies this
      ensures Valid()
      ensures old(stored).None? ==> r.Err? && unchanged(this)
      ensures old(stored).Some? ==>
                var c := old(stored).value;
                var forced := key == DONE && (value == ALWAYS_ASK || value == DO_NOT);
                var mid := if forced then c[IS_SET_PROGRESS_ON_TASK_DONE := JBool(false)] else c;
                var last := mid[TRANSITION_CONFIG := JObj(c[TRANSITION_CONFIG].fields[key := value])];
                && r == Ok(value)
                && stored == Some(last)
                && emitted == old(emitted) + (if forced then [Some(mid)] else []) + [Some(last)]
      ensures old(stored).Some? ==>
                && GetTransition(key) == Ok(Some(value))
                && forall k :: k != key ==> GetTransition(k) == old(GetTransition(k))
      ensures old(stored).Some? && key == DONE && value != JNull ==>
                && ShowSetProgressOption(DONE) == Ok(value != ALWAYS_ASK && value != DO_NOT)
                && (ShowSetProgressOption(DONE) == Ok(false) ==>
                      stored.value[IS_SET_PROGRESS_ON_TASK_DONE] == JBool(false))
      ensures transitionConfigOpts == old(transitionConfigOpts) && issueSuggestionsValue == old(issueSuggestionsValue)
    {
      if stored.None? {
        return Err("Cannot read properties of undefined (reading 'transitionConfig')");
      }
      ghost var c := stored.value;
      var transitionConfig := stored.value[TRANSITION_CONFIG].fields;
      transitionConfig := transitionConfig[key := value];
      if key == DONE {
        if value == ALWAYS_ASK || value == DO_NOT {
          var _ := PartialModelChange(map[IS_SET_PROGRESS_ON_TASK_DONE := JBool(false)]);
          assert stored.value == c[IS_SET_PROGRESS_ON_TASK_DONE := JBool(false)];
        }
      }
      ghost var mid := stored.value;
      var _ := PartialModelChange(map[TRANSITION_CONFIG := JObj(transitionConfig)]);
      assert stored.value == mid[TRANSITION_CONFIG := JObj(transitionConfig)];
      r := Ok(value);
    }

    /** `updateTransitionOptions` up to the API call: a falsy or string
        control value resets the control to `""` and requests nothing
        (`Ok(None)`); any other value must be a search result whose
        `issueData.id` is truthy, and then that issue's transitions are
        requested (`Ok(Some(id))`); otherwise reading `issueData.id` or
        `assertTruthy` throws. */
    method UpdateTransitionOptions() returns (r: Result<Option<Json>>)
      modifies this`issueSuggestionsValue
      ensures r == Ok(None) <==> !Truthy(old(issueSuggestionsValue)) || old(issueSuggestionsValue).JStr?
      ensures r == Ok(None) ==> issueSuggestionsValue == JStr("")
      ensures r != Ok(None) ==> issueSuggestionsValue == old(issueSuggestionsValue)
      ensures r.Err? <==> Truthy(old(issueSuggestionsValue)) && !old(issueSuggestionsValue).JStr?
                          && !HasIssueId(old(issueSuggestionsValue))
      ensures r.Ok? && r.value.Some? ==>
                HasIssueId(old(issueSuggestionsValue))
                && r.value.value == old(issueSuggestionsValue).fields["issueData"].fields["id"]
    {
      var searchResultItem := issueSuggestionsValue;
      if !Truthy(searchResultItem) || searchResultItem.JStr? {
        issueSuggestionsValue := JStr("");
        return Ok(None);
      }
      if !HasIssueId(searchResultItem) {
        return Err("issueData.id is missing or falsy");
      }
      r := Ok(Some(searchResultItem.fields["issueData"].fields["id"]));
    }
  }
}
