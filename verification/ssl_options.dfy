/** The TLS options that a script may pass.

    `parse_ssl_options` walks over a hash map in whatever order the map has, and
    updates a record of options as it goes.  The reference definition reads the
    map by key.  Parsing any enumeration of the map agrees with it.
 */
module SslOptions {
  import opened Wrappers

  /** A script value, as far as option parsing can tell values apart.  `Null` is
      void or an unusable pointer. */
  datatype Value = Str(s: string) | Null | Other

  /** Keys are script values too. */
  datatype Key = StrKey(s: string) | OtherKey(id: nat)

  type Entry = (Key, Value)

  datatype Input = NullInput | MapInput(entries: seq<Entry>) | OtherInput

  datatype TrustMode = AutoMode | OpenSsl | Custom | Insecure

  datatype Options = Options(trustMode: TrustMode, verifyPeer: bool, verifyHost: bool, caFile: string, caPath: string)

  const DEFAULTS := Options(AutoMode, true, true, "", "")

  datatype Error =
    | NotAMap | KeyNotString | ModeNotString | UnsupportedMode | CaFileType | CaPathType
    | NotExposed | UnknownOption | CaWithoutMode | CaNeedsCustom | CustomNeedsCa | InsecureWithCa

  const TRUST_MODE := StrKey("trust_mode")
  const CA_FILE := StrKey("ca_file")
  const CA_PATH := StrKey("ca_path")

  // --- Reading the map by key -----------------------------------------------------------

  predicate KnownMode(s: string) {
    s == "auto" || s == "openssl" || s == "custom" || s == "insecure"
  }

  function ModeOf(s: string): TrustMode {
    if s == "openssl" then OpenSsl else if s == "custom" then Custom else if s == "insecure" then Insecure else AutoMode
  }

  /** An entry that parsing does not reject by itself. */
  predicate EntryOk(k: Key, v: Value) {
    if k == TRUST_MODE then v.Str? && KnownMode(v.s)
    else (k == CA_FILE || k == CA_PATH) && !v.Other?
  }

  function TextAt(m: map<Key, Value>, k: Key): string {
    if k in m && m[k].Str? then m[k].s else ""
  }

  /** The options that the map asks for. */
  function Asked(m: map<Key, Value>): Options {
    var mode := ModeOf(TextAt(m, TRUST_MODE));
    Options(mode, mode != Insecure, mode != Insecure, TextAt(m, CA_FILE), TextAt(m, CA_PATH))
  }

  predicate HasCa(o: Options) { o.caFile != "" || o.caPath != "" }

  /** Every entry is acceptable, and a CA location is given exactly in custom mode. */
  predicate Accepted(m: map<Key, Value>) {
    && (forall k | k in m :: EntryOk(k, m[k]))
    && (HasCa(Asked(m)) <==> Asked(m).trustMode == Custom)
  }

  // --- Walking over the entries -----------------------------------------------------------

  /** Custom mode exactly with a CA location, no verification exactly in insecure mode. */
  predicate Coherent(o: Options) {
    && (o.trustMode == Custom <==> HasCa(o))
    && (o.trustMode == Insecure <==> !o.verifyPeer) && o.verifyPeer == o.verifyHost
  }

  /** A hash map holds every key once. */
  predicate DistinctKeys(es: seq<Entry>) {
    forall i, j | 0 <= i < j < |es| :: es[i].0 != es[j].0
  }

  function ToMap(es: seq<Entry>): map<Key, Value> {
    if es == [] then map[]
    else ToMap(es[..|es| - 1])[es[|es| - 1].0 := es[|es| - 1].1]
  }

  lemma {:induction false} ToMapHas(es: seq<Entry>)
    ensures forall k :: k in ToMap(es) <==> exists i :: 0 <= i < |es| && es[i].0 == k
    ensures DistinctKeys(es) ==> forall i | 0 <= i < |es| :: ToMap(es)[es[i].0] == es[i].1
  {
    if es != [] {
      var init := es[..|es| - 1];
      ToMapHas(init);
      forall k ensures k in ToMap(es) <==> exists i :: 0 <= i < |es| && es[i].0 == k {
        if k in ToMap(init) {
          var i :| 0 <= i < |init| && init[i].0 == k;
          assert es[i].0 == k;
        }
        if i :| 0 <= i < |es| && es[i].0 == k {
          assert i < |init| ==> init[i].0 == k;
        }
      }
      if DistinctKeys(es) {
        forall i | 0 <= i < |es| ensures ToMap(es)[es[i].0] == es[i].1 {
          assert i < |init| ==> init[i] == es[i];
        }
      }
    }
  }

  lemma ToMapNext(es: seq<Entry>, i: nat)
    requires i < |es| && DistinctKeys(es)
    ensures ToMap(es[..i + 1]) == ToMap(es[..i])[es[i].0 := es[i].1]
    ensures es[i].0 !in ToMap(es[..i])
  {
    assert es[..i + 1][..i] == es[..i];
    ToMapHas(es[..i]);
  }

  /** Why an entry is rejected, for those that are. */
  function EntryError(k: Key, v: Value): Error {
    match k
    case OtherKey(_) => KeyNotString
    case StrKey(s) =>
      if s == "trust_mode" then (if v.Str? then UnsupportedMode else ModeNotString)
      else if s == "ca_file" then CaFileType
      else if s == "ca_path" then CaPathType
      else if s == "verify_peer" || s == "verify_host" then NotExposed
      else UnknownOption
  }

  /** One entry of the loop. */
  method ParseEntry(k: Key, v: Value, before: Options, hadMode: bool) returns (r: Result<(Options, bool), Error>)
    ensures r.Ok? <==> EntryOk(k, v)
    ensures r.Ok? && k == TRUST_MODE ==>
              r.value == (before.(trustMode := ModeOf(v.s), verifyPeer := before.verifyPeer && ModeOf(v.s) != Insecure,
                                  verifyHost := before.verifyHost && ModeOf(v.s) != Insecure), true)
    ensures k == StrKey("trust_mode") && v == Str("auto") ==> r == Ok((before.(trustMode := AutoMode), true))
    ensures k == StrKey("trust_mode") && v == Str("openssl") ==> r == Ok((before.(trustMode := OpenSsl), true))
    ensures k == StrKey("trust_mode") && v == Str("custom") ==> r == Ok((before.(trustMode := Custom), true))
    ensures k == StrKey("trust_mode") && v == Str("insecure") ==>
              r == Ok((before.(trustMode := Insecure, verifyPeer := false, verifyHost := false), true))
    ensures r.Err? ==> r.error == EntryError(k, v)
    ensures r.Ok? && k == CA_FILE ==> r.value == (before.(caFile := if v.Str? then v.s else ""), hadMode)
    ensures r.Ok? && k == CA_PATH ==> r.value == (before.(caPath := if v.Str? then v.s else ""), hadMode)
  {
    var options := before;
    if !k.StrKey? {
      return Err(KeyNotString);
    }
    var key := k.s;
    if key == "trust_mode" {
      if !v.Str? {
        return Err(ModeNotString);
      }
      var mode := v.s;
      if mode == "auto" {
        options := options.(trustMode := AutoMode);
      } else if mode == "openssl" {
        options := options.(trustMode := OpenSsl);
      } else if mode == "custom" {
        options := options.(trustMode := Custom);
      } else if mode == "insecure" {
        options := options.(trustMode := Insecure, verifyPeer := false, verifyHost := false);
      } else {
        return Err(UnsupportedMode);
      }
      return Ok((options, true));
    } else if key == "ca_file" {
      if v == Null {
        options := options.(caFile := "");
      } else if v.Str? {
        options := options.(caFile := v.s);
      } else {
        return Err(CaFileType);
      }
    } else if key == "ca_path" {
      if v == Null {
        options := options.(caPath := "");
      } else if v.Str? {
        options := options.(caPath := v.s);
      } else {
        return Err(CaPathType);
      }
    } else if key == "verify_peer" || key == "verify_host" {
      return Err(NotExposed);
    } else {
      return Err(UnknownOption);
    }
    r := Ok((options, hadMode));
  }

  /** The entry at which the walk stops. */
  predicate FirstBad(es: seq<Entry>, i: int) {
    0 <= i < |es| && !EntryOk(es[i].0, es[i].1) && forall j | 0 <= j < i :: EntryOk(es[j].0, es[j].1)
  }

  method Parse(input: Input) returns (r: Result<Options, Error>)
    requires input.MapInput? ==> DistinctKeys(input.entries)
    ensures input == NullInput ==> r == Ok(Options(AutoMode, true, true, "", ""))
    ensures input == OtherInput ==> r == Err(NotAMap)
    ensures input.MapInput? ==> (r.Ok? <==> Accepted(ToMap(input.entries)))
    ensures input.MapInput? && r.Ok? ==> r.value == Asked(ToMap(input.entries))
    ensures input.MapInput? && r.Err? && (forall i | 0 <= i < |input.entries| :: EntryOk(input.entries[i].0, input.entries[i].1)) ==>
              var o := Asked(ToMap(input.entries));
              r.error == if !HasCa(o) then CustomNeedsCa
                         else if TRUST_MODE in ToMap(input.entries) then CaNeedsCustom else CaWithoutMode
    ensures input.MapInput? ==> forall i | FirstBad(input.entries, i) :: r == Err(EntryError(input.entries[i].0, input.entries[i].1))
    ensures r.Ok? ==> Coherent(r.value) && !InitRejects(r.value) && !CustomBranchRejects(r.value)
  {
    if input == NullInput {
      return Ok(DEFAULTS);
    }
    if input == OtherInput {
      return Err(NotAMap);
    }
    var es := input.entries;
    var options, hasMode := DEFAULTS, false;
    var i := 0;
    while i < |es|
      invariant 0 <= i <= |es|
      invariant forall j | 0 <= j < i :: EntryOk(es[j].0, es[j].1)
      invariant forall k | k in ToMap(es[..i]) :: EntryOk(k, ToMap(es[..i])[k])
      invariant options == Asked(ToMap(es[..i]))
      invariant hasMode <==> TRUST_MODE in ToMap(es[..i])
    {
      ToMapNext(es, i);
      var one := ParseEntry(es[i].0, es[i].1, options, hasMode);
      if one.Err? {
        BadEntryRejects(es, i);
        return Err(one.error);
      }
      options, hasMode := one.value.0, one.value.1;
      i := i + 1;
    }
    assert es[..i] == es;
    if options.caFile != "" || options.caPath != "" {
      if !hasMode {
        return Err(CaWithoutMode);
      }
      if options.trustMode != Custom {
        return Err(CaNeedsCustom);
      }
    }
    if options.trustMode == Custom && options.caFile == "" && options.caPath == "" {
      return Err(CustomNeedsCa);
    }
    if options.trustMode == Insecure && (options.caFile != "" || options.caPath != "") {
      return Err(InsecureWithCa);
    }
    r := Ok(options);
  }

  lemma BadEntryRejects(es: seq<Entry>, i: nat)
    requires i < |es| && DistinctKeys(es) && !EntryOk(es[i].0, es[i].1)
    ensures !Accepted(ToMap(es))
  {
    ToMapHas(es);
    assert es[i].0 in ToMap(es) && ToMap(es)[es[i].0] == es[i].1;
  }

  // --- What parsing promises -----------------------------------------------------------------

  /** The order in which the hash map enumerates its entries does not matter. */
  lemma OrderIrrelevant(es: seq<Entry>, fs: seq<Entry>)
    requires DistinctKeys(es) && DistinctKeys(fs) && multiset(es) == multiset(fs)
    ensures ToMap(es) == ToMap(fs)
  {
    ToMapHas(es);
    ToMapHas(fs);
    forall k | k in ToMap(es) ensures k in ToMap(fs) && ToMap(fs)[k] == ToMap(es)[k] {
      var i :| 0 <= i < |es| && es[i].0 == k;
      assert es[i] in multiset(fs);
      var j :| 0 <= j < |fs| && fs[j] == es[i];
    }
    forall k | k in ToMap(fs) ensures k in ToMap(es) {
      var j :| 0 <= j < |fs| && fs[j].0 == k;
      assert fs[j] in multiset(es);
      var i :| 0 <= i < |es| && es[i] == fs[j];
    }
  }

  /** So any two enumerations of one map are both accepted, with the same options,
      or both rejected, possibly with different errors. */
  method ParseTwice(es: seq<Entry>, fs: seq<Entry>) returns (r: Result<Options, Error>, s: Result<Options, Error>)
    requires DistinctKeys(es) && DistinctKeys(fs) && multiset(es) == multiset(fs)
    ensures r.Ok? <==> s.Ok?
    ensures r.Ok? ==> r == s
  {
    OrderIrrelevant(es, fs);
    r := Parse(MapInput(es));
    s := Parse(MapInput(fs));
  }

  /** The test at the head of `init_ssl`, and the one in the custom branch of
      `configure_client_context`. */
  predicate InitRejects(o: Options) { o.verifyHost && !o.verifyPeer }

  predicate CustomBranchRejects(o: Options) { o.trustMode == Custom && o.caFile == "" && o.caPath == "" }

  /** The options of an accepted map are coherent, neither later test can fire, and the
      map has no other keys. */
  lemma AcceptedOptions(m: map<Key, Value>)
    requires Accepted(m)
    ensures Coherent(Asked(m)) && !InitRejects(Asked(m)) && !CustomBranchRejects(Asked(m))
    ensures m.Keys <= {TRUST_MODE, CA_FILE, CA_PATH}
  {
  }

  /** Every coherent combination can be asked for. */
  lemma EveryOptionReachable(o: Options)
    requires Coherent(o)
    ensures exists m :: Accepted(m) && Asked(m) == o
  {
    var (mode, file, path) := (o.trustMode, o.caFile, o.caPath);
    var name := match mode case AutoMode => "auto" case OpenSsl => "openssl" case Custom => "custom" case Insecure => "insecure";
    assert ModeOf(name) == mode && KnownMode(name);
    var m := map[TRUST_MODE := Str(name), CA_FILE := Str(file), CA_PATH := Str(path)];
    assert TextAt(m, TRUST_MODE) == name && TextAt(m, CA_FILE) == file && TextAt(m, CA_PATH) == path;
    assert Accepted(m);
  }
}
