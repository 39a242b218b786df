/**
 * The simulation's configuration manager: the configuration file is read
 * as a JSON object, its assignment rules have their string keys converted
 * to integers, and any failure along the way (missing file, unparsable
 * JSON, a rule key that is not an integer) falls back to the default
 * configuration.  Validation requires three essential keys.
 *
 * The file system is a parameter: a file is missing, unparsable, or a
 * parsed object.  The default configuration is a parameter as well.
 */
module CoreConfig {
  import opened Wrappers
  import opened Seqs
  import opened Dicts
  import Strs
  import Json

  /** A rule table of one agent type after sanitising: integer keys, or the entry as it was. */
  datatype RuleTable = Numbered(byPriority: Dict<int, Json.Value>) | Kept(raw: Json.Value)

  /** A configuration value: as read, or the sanitised `assignment_rules`. */
  datatype ConfigValue = Plain(v: Json.Value) | Rules(tables: Dict<string, RuleTable>)

  type Config = Dict<string, ConfigValue>

  datatype ConfigFile = Missing | Unparsable | Parsed(obj: Json.Fields)

  const RuleKey: string := "assignment_rules"

  // ---------------------------------------------------------------------
  // int(k)
  // ---------------------------------------------------------------------

  predicate AllDigits(d: string)
  {
    |d| > 0 && forall i :: 0 <= i < |d| ==> Strs.IsDigit(d[i])
  }

  /** `int(k)` on a rule key: an optional sign and decimal digits; None where Python raises. */
  function IntOf(k: string): (r: Option<int>)
    ensures r.Some? <==> AllDigits(k) || (|k| > 0 && (k[0] == '-' || k[0] == '+') && AllDigits(k[1..]))
  {
    if |k| > 0 && (k[0] == '-' || k[0] == '+') then
      if AllDigits(k[1..]) then
        (if k[0] == '-' then Some(0 - Strs.StrToNat(k[1..]) as int) else Some(Strs.StrToNat(k[1..])))
      else None
    else if AllDigits(k) then Some(Strs.StrToNat(k))
    else None
  }

  /** Keys written by `str(n)` read back as `n`. */
  lemma IntOfRoundTrip(n: int)
    ensures n >= 0 ==> IntOf(Strs.NatToStr(n)) == Some(n)
    ensures n < 0 ==> IntOf("-" + Strs.NatToStr(-n)) == Some(n)
  {
    if n >= 0 {
      Strs.NatToStrRoundTrip(n);
    } else {
      var k := "-" + Strs.NatToStr(-n);
      assert k[1..] == Strs.NatToStr(-n);
      Strs.NatToStrRoundTrip(-n);
    }
  }

  // ---------------------------------------------------------------------
  // Sanitising the assignment rules
  // ---------------------------------------------------------------------

  /** `{int(k): v for k, v in rules.items()}` over the first `n` keys; None when a key is not an integer. */
  function Renumber(rules: Json.Fields, n: nat): (r: Option<Dict<int, Json.Value>>)
    requires n <= |rules.keys|
    ensures r.Some? <==> forall j :: 0 <= j < n ==> IntOf(rules.keys[j]).Some?
    ensures r.Some? ==> forall j :: 0 <= j < n ==> IntOf(rules.keys[j]).value in r.value.vals
    ensures r.Some? ==> |r.value.keys| <= n
  {
    if n == 0 then Some(Empty())
    else
      var prev := Renumber(rules, n - 1);
      var k := rules.keys[n - 1];
      HasIffKey(rules, k);
      match IntOf(k)
      case None => None
      case Some(i) =>
        if prev.None? then None else Some(Set(prev.value, i, rules.vals[k]))
  }

  /** The value under an integer key is that of the last original key converting to it. */
  lemma {:induction false} RenumberLastWins(rules: Json.Fields, n: nat, j: nat)
    requires j < n <= |rules.keys| && Renumber(rules, n).Some?
    requires forall l :: j < l < n ==> IntOf(rules.keys[l]) != IntOf(rules.keys[j])
    ensures rules.keys[j] in rules.vals
    ensures Renumber(rules, n).value.vals[IntOf(rules.keys[j]).value] == rules.vals[rules.keys[j]]
  {
    RenumberValsAgree(rules, n);
    ValsLastWins(rules, n, j);
  }

  /** The value maps of `Renumber`, built without the key order. */
  ghost function RenumberVals(rules: Json.Fields, n: nat): Option<map<int, Json.Value>>
    requires n <= |rules.keys|
  {
    if n == 0 then Some(map[])
    else
      var prev := RenumberVals(rules, n - 1);
      var k := rules.keys[n - 1];
      if prev.None? || IntOf(k).None? || k !in rules.vals then None
      else Some(prev.value[IntOf(k).value := rules.vals[k]])
  }

  lemma {:induction false} RenumberValsAgree(rules: Json.Fields, n: nat)
    requires n <= |rules.keys|
    ensures Renumber(rules, n).Some? <==> RenumberVals(rules, n).Some?
    ensures Renumber(rules, n).Some? ==> Renumber(rules, n).value.vals == RenumberVals(rules, n).value
  {
    if n > 0 {
      RenumberValsAgree(rules, n - 1);
      HasIffKey(rules, rules.keys[n - 1]);
    }
  }

  lemma {:induction false} ValsLastWins(rules: Json.Fields, n: nat, j: nat)
    requires j < n <= |rules.keys| && RenumberVals(rules, n).Some? && IntOf(rules.keys[j]).Some?
    requires forall l :: j < l < n ==> IntOf(rules.keys[l]) != IntOf(rules.keys[j])
    ensures rules.keys[j] in rules.vals
    ensures IntOf(rules.keys[j]).value in RenumberVals(rules, n).value
    ensures RenumberVals(rules, n).value[IntOf(rules.keys[j]).value] == rules.vals[rules.keys[j]]
  {
    if j < n - 1 {
      ValsLastWins(rules, n - 1, j);
    }
  }

  /** Every integer key comes from one of the original keys. */
  lemma RenumberSource(rules: Json.Fields, n: nat, x: int) returns (j: nat)
    requires n <= |rules.keys| && Renumber(rules, n).Some? && x in Renumber(rules, n).value.vals
    ensures j < n && IntOf(rules.keys[j]) == Some(x)
  {
    RenumberValsAgree(rules, n);
    j := ValsSource(rules, n, x);
  }

  lemma {:induction false} ValsSource(rules: Json.Fields, n: nat, x: int) returns (j: nat)
    requires n <= |rules.keys| && RenumberVals(rules, n).Some? && x in RenumberVals(rules, n).value
    ensures j < n && IntOf(rules.keys[j]) == Some(x)
  {
    var k := rules.keys[n - 1];
    if IntOf(k) == Some(x) {
      j := n - 1;
    } else {
      j := ValsSource(rules, n - 1, x);
    }
  }

  /** A successful renumbering of `n` keys sets the last key's integer in that of `n - 1` keys. */
  lemma RenumberStep(rules: Json.Fields, n: nat)
    requires 0 < n <= |rules.keys| && Renumber(rules, n).Some?
    ensures Renumber(rules, n - 1).Some? && IntOf(rules.keys[n - 1]).Some? && rules.keys[n - 1] in rules.vals
    ensures Renumber(rules, n).value
         == Set(Renumber(rules, n - 1).value, IntOf(rules.keys[n - 1]).value, rules.vals[rules.keys[n - 1]])
  {
    HasIffKey(rules, rules.keys[n - 1]);
  }

  /** With distinct integer keys every original key adds one integer key. */
  lemma {:induction false} RenumberSize(rules: Json.Fields, n: nat)
    requires n <= |rules.keys| && Renumber(rules, n).Some?
    requires forall a, b :: 0 <= a < b < n ==> IntOf(rules.keys[a]) != IntOf(rules.keys[b])
    ensures |Renumber(rules, n).value.keys| == n
  {
    if n > 0 {
      RenumberSize(rules, n - 1);
      RenumberStep(rules, n);
      RenumberFresh(rules, n);
      SetNewKeyGrows(Renumber(rules, n - 1).value, IntOf(rules.keys[n - 1]).value, rules.vals[rules.keys[n - 1]]);
    }
  }

  /** With distinct integer keys the last key's integer is not among the earlier ones. */
  lemma RenumberFresh(rules: Json.Fields, n: nat)
    requires 0 < n <= |rules.keys| && Renumber(rules, n).Some?
    requires forall a, b :: 0 <= a < b < n ==> IntOf(rules.keys[a]) != IntOf(rules.keys[b])
    ensures IntOf(rules.keys[n - 1]).Some? && IntOf(rules.keys[n - 1]).value !in Renumber(rules, n - 1).value.vals
  {
    RenumberStep(rules, n);
    var i := IntOf(rules.keys[n - 1]).value;
    if i in Renumber(rules, n - 1).value.vals {
      var j := RenumberSource(rules, n - 1, i);
      assert false;
    }
  }

  /** With distinct integer keys nothing collides: every rule keeps its value and the table its size. */
  lemma RenumberCanonical(rules: Json.Fields, n: nat)
    requires n <= |rules.keys| && Renumber(rules, n).Some?
    requires forall a, b :: 0 <= a < b < n ==> IntOf(rules.keys[a]) != IntOf(rules.keys[b])
    ensures |Renumber(rules, n).value.keys| == n
    ensures forall j :: 0 <= j < n ==>
      && rules.keys[j] in rules.vals
      && Renumber(rules, n).value.vals[IntOf(rules.keys[j]).value] == rules.vals[rules.keys[j]]
  {
    RenumberSize(rules, n);
    forall j | 0 <= j < n
      ensures rules.keys[j] in rules.vals
      ensures Renumber(rules, n).value.vals[IntOf(rules.keys[j]).value] == rules.vals[rules.keys[j]]
    {
      RenumberLastWins(rules, n, j);
    }
  }

  /** An entry sanitises when it is not a non-empty object, or when every one of its keys is an integer. */
  predicate TableOk(entry: Json.Value)
  {
    entry.Obj? && |entry.fields.keys| > 0 ==> forall j :: 0 <= j < |entry.fields.keys| ==> IntOf(entry.fields.keys[j]).Some?
  }

  /** One agent type's entry: a non-empty object is renumbered, anything else kept as it is. */
  function SanitizeTable(entry: Json.Value): (r: Option<RuleTable>)
    ensures !(entry.Obj? && |entry.fields.keys| > 0) ==> r == Some(Kept(entry))
    ensures r.Some? <==> TableOk(entry)
    ensures r.Some? && r.value.Numbered? ==> entry.Obj? && r.value.byPriority == Renumber(entry.fields, |entry.fields.keys|).value
  {
    if entry.Obj? && |entry.fields.keys| > 0 then
      var t := Renumber(entry.fields, |entry.fields.keys|);
      if t.Some? then Some(Numbered(t.value)) else None
    else Some(Kept(entry))
  }

  /**
   * Every agent type's entry over the first `n` types, or None at the first
   * that fails; each agent type keeps its position and gets the sanitised
   * form of its own entry.
   */
  function SanitizeTables(rules: Json.Fields, n: nat): (r: Option<Dict<string, RuleTable>>)
    requires n <= |rules.keys|
    ensures KeysInVals(rules) && (r.Some? <==> forall j :: 0 <= j < n ==> TableOk(rules.vals[rules.keys[j]]))
    ensures r.Some? ==> r.value.keys == rules.keys[..n] && TablesFrom(rules, n, r.value)
  {
    KeysAreIn(rules);
    if n == 0 then Some(Empty())
    else
      var prev := SanitizeTables(rules, n - 1);
      var t := SanitizeTable(rules.vals[rules.keys[n - 1]]);
      if prev.None? || t.None? then None
      else
        TablesStepValues(rules, n, prev.value, t.value);
        Some(TablesStep(rules, n, prev.value, t.value))
  }

  /** Each of the first `n` agent types maps to the sanitised form of its own entry. */
  predicate TablesFrom(rules: Json.Fields, n: nat, d: Dict<string, RuleTable>)
    requires n <= |rules.keys| && KeysInVals(rules)
  {
    forall j :: 0 <= j < n ==> rules.keys[j] in d.vals && Some(d.vals[rules.keys[j]]) == SanitizeTable(rules.vals[rules.keys[j]])
  }

  lemma TablesStepValues(rules: Json.Fields, n: nat, prev: Dict<string, RuleTable>, t: RuleTable)
    requires 0 < n <= |rules.keys| && prev.keys == rules.keys[..n - 1] && KeysInVals(rules)
    requires TablesFrom(rules, n - 1, prev)
    requires SanitizeTable(rules.vals[rules.keys[n - 1]]) == Some(t)
    ensures TablesFrom(rules, n, TablesStep(rules, n, prev, t))
  {
    var r := TablesStep(rules, n, prev, t);
    forall j | 0 <= j < n ensures rules.keys[j] in r.vals && Some(r.vals[rules.keys[j]]) == SanitizeTable(rules.vals[rules.keys[j]]) {
      if j < n - 1 {
        NoDupDistinct(rules.keys, j, n - 1);
      }
    }
  }

  lemma NoDupDistinct<T>(s: seq<T>, i: nat, j: nat)
    requires NoDup(s) && i < j < |s|
    ensures s[i] != s[j]
  {
  }

  /** One pass of the loop: the next agent type's table added after the previous ones. */
  function TablesStep(rules: Json.Fields, n: nat, prev: Dict<string, RuleTable>, t: RuleTable): (r: Dict<string, RuleTable>)
    requires 0 < n <= |rules.keys| && prev.keys == rules.keys[..n - 1]
    ensures r.keys == rules.keys[..n]
    ensures r.vals == prev.vals[rules.keys[n - 1] := t]
  {
    var k := rules.keys[n - 1];
    assert k !in prev.vals by {
      HasIffKey(prev, k);
      NoDupNotInPrefix(rules.keys, n - 1);
    }
    assert rules.keys[..n] == rules.keys[..n - 1] + [k];
    Set(prev, k, t)
  }

  lemma NoDupNotInPrefix<T>(s: seq<T>, i: nat)
    requires NoDup(s) && i < |s|
    ensures s[i] !in s[..i]
  {
  }

  /** A configuration as read, before sanitising. */
  function AsRead(obj: Json.Fields): (c: Config)
    ensures c.keys == obj.keys
    ensures forall k :: k in obj.vals ==> k in c.vals && c.vals[k] == Plain(obj.vals[k])
  {
    var c := RawDict(obj.keys, map k | k in obj.vals :: Plain(obj.vals[k]));
    assert c.vals.Keys == obj.vals.Keys;
    c
  }

  /**
   * `_sanitize_assignment_rules`: a truthy `assignment_rules` object has
   * every table renumbered; a falsy one is left alone.  None where Python
   * raises: a truthy non-object, or a rule key that is not an integer.
   */
  function Sanitize(obj: Json.Fields): (r: Option<Config>)
    ensures var ar := Json.Get(obj, RuleKey);
      && (!Json.Truthy(ar) ==> r == Some(AsRead(obj)))
      && (Json.Truthy(ar) && !ar.Obj? ==> r.None?)
      && (ar.Obj? && Json.Truthy(ar) ==> (r.Some? <==> SanitizeTables(ar.fields, |ar.fields.keys|).Some?))
    ensures r.Some? ==> r.value.keys == obj.keys
    ensures r.Some? ==> forall k :: k in obj.vals && k != RuleKey ==> r.value.vals[k] == Plain(obj.vals[k])
  {
    var ar := Json.Get(obj, RuleKey);
    if !Json.Truthy(ar) then Some(AsRead(obj))
    else if !ar.Obj? then None
    else
      var t := SanitizeTables(ar.fields, |ar.fields.keys|);
      if t.None? then None
      else
        assert RuleKey in obj.vals;
        Some(Set(AsRead(obj), RuleKey, Rules(t.value)))
  }

  /**
   * `_load_configuration`: the sanitised file, or the default when the file
   * is missing, does not parse or fails to sanitise.
   */
  function Load(file: ConfigFile, default: Config): (c: Config)
    ensures file.Parsed? && Sanitize(file.obj).Some? ==> c == Sanitize(file.obj).value
    ensures !(file.Parsed? && Sanitize(file.obj).Some?) ==> c == default
  {
    match file
    case Parsed(obj) => (var s := Sanitize(obj); if s.Some? then s.value else default)
    case _ => default
  }

  // ---------------------------------------------------------------------
  // Queries
  // ---------------------------------------------------------------------

  const RequiredKeys: seq<string> := ["layout_file", "sequence_file", "num_operarios_total"]

  /** The required keys absent from the configuration, in the order they are listed. */
  function MissingKeys(c: Config, n: nat): (m: seq<string>)
    requires n <= |RequiredKeys|
    ensures forall k :: k in m <==> k in RequiredKeys[..n] && k !in c.vals
    ensures |m| <= n
  {
    if n == 0 then []
    else
      var k := RequiredKeys[n - 1];
      assert RequiredKeys[..n] == RequiredKeys[..n - 1] + [k];
      MissingKeys(c, n - 1) + (if k in c.vals then [] else [k])
  }

  /** The outcome of validation: success, or the error raised with the missing keys. */
  datatype Validation = Passed | MissingRequired(keys: seq<string>)

  /** `validate_configuration`: passes, or raises naming the missing keys. */
  function Validate(c: Config): (r: Validation)
    ensures r.Passed? <==> forall k :: k in RequiredKeys ==> k in c.vals
    ensures r.MissingRequired? ==> |r.keys| > 0 && forall k :: k in r.keys <==> k in RequiredKeys && k !in c.vals
  {
    var m := MissingKeys(c, |RequiredKeys|);
    assert RequiredKeys[..|RequiredKeys|] == RequiredKeys;
    if |m| > 0 then
      assert m[0] in m;
      MissingRequired(m)
    else
      assert forall k :: k in RequiredKeys ==> k in c.vals by {
        forall k | k in RequiredKeys ensures k in c.vals {
          assert k in RequiredKeys[..|RequiredKeys|];
        }
      }
      Passed
  }

  /** `get_value`: the stored value, or the given default when the key is absent. */
  function GetValue(c: Config, k: string, default: ConfigValue): (v: ConfigValue)
    ensures k in c.vals ==> v == c.vals[k]
    ensures k !in c.vals ==> v == default
  {
    Dicts.GetOr(c, k, default)
  }

  /** `is_loaded`: the configuration has at least one key. */
  predicate IsLoaded(c: Config)
  {
    |c.keys| > 0
  }

  /** A configuration that validates is loaded. */
  lemma ValidIsLoaded(c: Config)
    requires Validate(c).Passed?
    ensures IsLoaded(c)
  {
    assert "layout_file" in RequiredKeys;
    HasIffKey(c, "layout_file");
  }

  /** Keys other than the assignment rules read back exactly as they were in the file. */
  lemma LoadKeepsPlainValues(obj: Json.Fields, default: Config, k: string, d: ConfigValue)
    requires Sanitize(obj).Some? && k in obj.vals && k != RuleKey
    ensures GetValue(Load(Parsed(obj), default), k, d) == Plain(obj.vals[k])
  {
  }
}
