/**
 * Model of src/main/config/__init__.py.
 *
 * The INI file, once read, is a table: a DEFAULT section and named sections,
 * each an insertion-ordered dict of lower-cased option names. The profile
 * override loop updates that table in place; the rest of the module makes
 * pure decisions: the active profile, the production secret gate and the
 * precedence of environment variables over INI values over literals.
 */
module Config {
  import opened Wrappers
  import opened PyStr
  import Json

  // ---------------------------------------------------------------------
  // The parser's table
  // ---------------------------------------------------------------------

  /** ConfigParser's default section. */
  const DefaultSection := "DEFAULT"

  predicate Distinct(s: seq<string>) {
    forall i, j :: 0 <= i < j < |s| ==> s[i] != s[j]
  }

  /** A dict of options in insertion order: `keys` lists the options in the
      order they were first set, `values` maps each to its value. */
  datatype OrderedDict = OrderedDict(keys: seq<string>, values: map<string, string>) {

    /** Every option is listed once, and every option name is lower-case
        (ConfigParser passes each name through `optionxform`). */
    ghost predicate Valid() {
      && (forall k :: k in values <==> k in keys)
      && Distinct(keys)
      && (forall k :: k in values ==> IsLower(k))
    }

    /** `d[k] = v`: a new option goes to the end, an existing one keeps its place. */
    function Put(k: string, v: string): OrderedDict {
      OrderedDict(if k in values then keys else keys + [k], values[k := v])
    }
  }

  const EmptyDict := OrderedDict([], map[])

  /** Writing an option stores it, keeps the dict well formed, and the last write wins. */
  lemma PutFacts(d: OrderedDict, k: string, v: string, w: string)
    requires d.Valid() && IsLower(k)
    ensures d.Put(k, v).Valid()
    ensures k in d.Put(k, v).values && d.Put(k, v).values[k] == v
    ensures d.Put(k, v).Put(k, w) == d.Put(k, w)
  {
  }

  /** Writing the value an option already has changes nothing. */
  lemma PutSame(d: OrderedDict, k: string)
    requires k in d.values
    ensures d.Put(k, d.values[k]) == d
  {
    assert d.values[k := d.values[k]] == d.values;
  }

  /** What a ConfigParser holds once the file is read. */
  datatype Table = Table(defaults: OrderedDict, sections: map<string, OrderedDict>)

  /** The parser's invariant: DEFAULT is not a named section, and every dict is well formed. */
  ghost predicate TableOk(t: Table) {
    && t.defaults.Valid()
    && DefaultSection !in t.sections
    && forall s :: s in t.sections ==> t.sections[s].Valid()
  }

  /** The value stored at `loc` = (section, option), without DEFAULT fallback. */
  function Get(t: Table, loc: (string, string)): Option<string> {
    if loc.0 == DefaultSection then
      (if loc.1 in t.defaults.values then Some(t.defaults.values[loc.1]) else None)
    else if loc.0 in t.sections && loc.1 in t.sections[loc.0].values then
      Some(t.sections[loc.0].values[loc.1])
    else None
  }

  /** `parser.has_option(section, option)` for a named section: its own
      option or one inherited from DEFAULT. */
  predicate HasOption(t: Table, section: string, option: string) {
    section in t.sections && (option in t.sections[section].values || option in t.defaults.values)
  }

  /** `parser[section][option]`: the section's own value wins over DEFAULT's. */
  function Lookup(t: Table, section: string, option: string): (r: string)
    requires HasOption(t, section, option)
    ensures section != DefaultSection ==>
              if Get(t, (section, option)).Some? then Get(t, (section, option)) == Some(r)
              else Get(t, (DefaultSection, option)) == Some(r)
  {
    if option in t.sections[section].values then t.sections[section].values[option]
    else t.defaults.values[option]
  }

  /** A lookup depends only on the two places it reads. */
  lemma LookupFrame(t: Table, u: Table, section: string, option: string)
    requires HasOption(t, section, option) && section in u.sections && section != DefaultSection
    requires Get(u, (section, option)) == Get(t, (section, option))
    requires Get(u, (DefaultSection, option)) == Get(t, (DefaultSection, option))
    ensures HasOption(u, section, option) && Lookup(u, section, option) == Lookup(t, section, option)
  {
  }

  /** `keys` without the options in `own`, order kept. */
  function Unshadowed(keys: seq<string>, own: map<string, string>): (r: seq<string>)
    ensures forall k :: k in r <==> k in keys && k !in own
  {
    if keys == [] then []
    else (if keys[0] in own then [] else [keys[0]]) + Unshadowed(keys[1..], own)
  }

  lemma {:induction false} UnshadowedDistinct(keys: seq<string>, own: map<string, string>)
    requires Distinct(keys)
    ensures Distinct(Unshadowed(keys, own))
  {
    if keys != [] {
      UnshadowedDistinct(keys[1..], own);
    }
  }

  /** Appending an option that `own` overrides leaves the inherited list as it was. */
  lemma {:induction false} UnshadowedAppend(keys: seq<string>, own: map<string, string>, k: string)
    requires k in own
    ensures Unshadowed(keys + [k], own) == Unshadowed(keys, own)
  {
    if keys == [] {
      assert [k][1..] == [];
    } else {
      assert (keys + [k])[1..] == keys[1..] + [k];
      UnshadowedAppend(keys[1..], own, k);
    }
  }

  /** The key list that iterating `parser[section]` snapshots: the section's
      own options in order, then the DEFAULT options it does not override. */
  function Options(t: Table, section: string): (o: seq<string>)
    requires section in t.sections
    ensures t.sections[section].keys <= o
    ensures TableOk(t) ==> Distinct(o) && forall k :: k in o <==> HasOption(t, section, k)
  {
    SnapshotFacts(t.sections[section], t.defaults);
    t.sections[section].keys + Unshadowed(t.defaults.keys, t.sections[section].values)
  }

  /** The own options followed by the inherited ones list each option of
      either dict once. */
  lemma SnapshotFacts(own: OrderedDict, defaults: OrderedDict)
    ensures own.Valid() && defaults.Valid() ==>
              var o := own.keys + Unshadowed(defaults.keys, own.values);
              && Distinct(o)
              && (forall k :: k in o <==> k in own.values || k in defaults.values)
              && (forall i :: 0 <= i < |o| ==> IsLower(o[i]))
  {
    if own.Valid() && defaults.Valid() {
      var inherited := Unshadowed(defaults.keys, own.values);
      UnshadowedDistinct(defaults.keys, own.values);
      var o := own.keys + inherited;
      forall i, j | 0 <= i < j < |o| ensures o[i] != o[j] {
        if j >= |own.keys| && i < |own.keys| {
          assert o[i] in own.values;
          assert o[j] in inherited;
        }
      }
      forall i | 0 <= i < |o| ensures IsLower(o[i]) {
        if i < |own.keys| {
          assert o[i] in own.keys;
        } else {
          assert o[i] in inherited;
        }
      }
    }
  }

  /** The snapshot lists every option of the section exactly once. */
  lemma OptionsFacts(t: Table, section: string)
    requires TableOk(t) && section in t.sections
    ensures Distinct(Options(t, section))
    ensures forall i :: 0 <= i < |Options(t, section)| ==>
              HasOption(t, section, Options(t, section)[i]) && IsLower(Options(t, section)[i])
    ensures forall k :: HasOption(t, section, k) <==> k in Options(t, section)
  {
    SnapshotFacts(t.sections[section], t.defaults);
  }

  // ---------------------------------------------------------------------
  // One step of the override loop
  // ---------------------------------------------------------------------

  /** Where the loop writes `key`: a dotted key is split at its first `.`
      into section and option; an undotted key, or one whose section part is
      empty (which `parser.set` treats as DEFAULT), lands in DEFAULT. */
  function Target(key: string): (string, string) {
    match SplitOnce(key, '.')
    case None => (DefaultSection, key)
    case Some(p) => (if p.0 == "" then DefaultSection else p.0, p.1)
  }

  /** `if not parser.has_section(name): parser.add_section(name)`. */
  function EnsureSection(t: Table, name: string): (r: Table)
    ensures name in r.sections && r.sections.Keys == t.sections.Keys + {name}
    ensures r.defaults == t.defaults
    ensures forall loc :: Get(r, loc) == Get(t, loc)
    ensures name in t.sections ==> r == t
  {
    if name in t.sections then t else t.(sections := t.sections[name := EmptyDict])
  }

  /** `parser.set(section, option, value)`: an empty section name or DEFAULT
      means the DEFAULT section; the option name is lower-cased. */
  function SetOption(t: Table, section: string, option: string, value: string): (r: Table)
    requires section == "" || section == DefaultSection || section in t.sections
    ensures r.sections.Keys == t.sections.Keys
    ensures var target := (if section == "" then DefaultSection else section, Lower(option));
            && Get(r, target) == Some(value)
            && forall loc :: loc != target ==> Get(r, loc) == Get(t, loc)
  {
    if section == "" || section == DefaultSection then
      t.(defaults := t.defaults.Put(Lower(option), value))
    else
      t.(sections := t.sections[section := t.sections[section].Put(Lower(option), value)])
  }

  /** One iteration of the loop: read the value of `key` through the profile
      section (at that moment), then write it to the key's target. */
  function ApplyOne(t: Table, profile: string, key: string): (r: Table)
    requires HasOption(t, profile, key)
    ensures forall s, k :: HasOption(t, s, k) ==> HasOption(r, s, k)
  {
    var value := Lookup(t, profile, key);
    match SplitOnce(key, '.')
    case None => SetOption(t, DefaultSection, key, value)
    case Some(p) => SetOption(EnsureSection(t, p.0), p.0, p.1, value)
  }

  /** The section part of a lower-case dotted key is lower-case, so it is never DEFAULT. */
  lemma DottedParts(key: string)
    requires IsLower(key) && '.' in key
    ensures IsLower(SplitOnce(key, '.').value.0) && IsLower(SplitOnce(key, '.').value.1)
    ensures SplitOnce(key, '.').value.0 != DefaultSection
  {
    var p := SplitOnce(key, '.').value;
    assert p.0 == key[..|p.0|];
    assert p.1 == key[|p.0| + 1..];
    LowerSlice(key, 0, |p.0|);
    LowerSlice(key, |p.0| + 1, |key|);
    LowerIsNotDefault(p.0);
  }

  /** A step keeps the table well formed and stores the value it read at the key's target. */
  lemma ApplyOneWrites(t: Table, profile: string, key: string)
    requires TableOk(t) && HasOption(t, profile, key) && IsLower(key)
    ensures TableOk(ApplyOne(t, profile, key))
    ensures Get(ApplyOne(t, profile, key), Target(key)) == Some(Lookup(t, profile, key))
  {
    var value := Lookup(t, profile, key);
    match SplitOnce(key, '.')
    case None =>
      LowerOfLower(key);
      PutFacts(t.defaults, key, value, value);
    case Some(p) =>
      DottedParts(key);
      LowerOfLower(p.1);
      var u := EnsureSection(t, p.0);
      if p.0 == "" {
        PutFacts(u.defaults, p.1, value, value);
      } else {
        PutFacts(u.sections[p.0], p.1, value, value);
      }
  }

  /** The options of section `name`; none when it does not exist yet. */
  function SectionOrEmpty(t: Table, name: string): OrderedDict {
    if name in t.sections then t.sections[name] else EmptyDict
  }

  /** A dotted key writes one option of its section, creating that section when
      it is absent; DEFAULT and every other section stay as they were. */
  lemma ApplyOneDotted(t: Table, profile: string, key: string)
    requires TableOk(t) && HasOption(t, profile, key) && IsLower(key)
    requires '.' in key && SplitOnce(key, '.').value.0 != ""
    ensures var sec := SplitOnce(key, '.').value.0;
            var opt := SplitOnce(key, '.').value.1;
            var r := ApplyOne(t, profile, key);
            && r.defaults == t.defaults
            && r.sections == t.sections[sec := SectionOrEmpty(t, sec).Put(opt, Lookup(t, profile, key))]
            && r.sections.Keys == t.sections.Keys + {sec}
  {
    var p := SplitOnce(key, '.').value;
    DottedParts(key);
    LowerOfLower(p.1);
    var value := Lookup(t, profile, key);
    var u := EnsureSection(t, p.0);
    assert u.sections[p.0] == SectionOrEmpty(t, p.0);
    assert ApplyOne(t, profile, key) == SetOption(u, p.0, p.1, value);
  }

  /** An undotted key writes `DEFAULT[key]`; the named sections stay as they were. */
  lemma ApplyOneUndotted(t: Table, profile: string, key: string)
    requires TableOk(t) && HasOption(t, profile, key) && IsLower(key) && '.' !in key
    ensures ApplyOne(t, profile, key).sections == t.sections
    ensures ApplyOne(t, profile, key).defaults == t.defaults.Put(key, Lookup(t, profile, key))
    ensures ApplyOne(t, profile, key).defaults.values == t.defaults.values[key := Lookup(t, profile, key)]
  {
    LowerOfLower(key);
  }

  // ---------------------------------------------------------------------
  // The whole loop
  // ---------------------------------------------------------------------

  /** The loop over `keys`, in order. */
  function ApplyKeys(t: Table, profile: string, keys: seq<string>): (r: Table)
    requires forall i :: 0 <= i < |keys| ==> HasOption(t, profile, keys[i])
    ensures forall s, k :: HasOption(t, s, k) ==> HasOption(r, s, k)
    decreases |keys|
  {
    if keys == [] then t
    else ApplyKeys(ApplyOne(t, profile, keys[0]), profile, keys[1..])
  }

  /** `_apply_profile_overrides(parser, profile)` as a function of the table:
      nothing happens without a section named exactly `profile`; otherwise
      every option the profile section shows is applied in iteration order. */
  function Overrides(t: Table, profile: string): (r: Table)
    requires TableOk(t)
    ensures TableOk(r)
  {
    if profile !in t.sections then t
    else
      OptionsFacts(t, profile);
      ApplyKeysOk(t, profile, Options(t, profile));
      ApplyKeys(t, profile, Options(t, profile))
  }

  /** `_apply_profile_overrides`: updates the parser's table in place. */
  method ApplyProfileOverrides(parser: ConfigParser, profileName: string)
    requires parser.Valid()
    modifies parser
    ensures parser.Valid()
    ensures parser.State() == Overrides(old(parser.State()), profileName)
  {
    if !parser.HasSection(profileName) {
      return;
    }
    OptionsFacts(parser.State(), profileName);
    var keys := Options(parser.State(), profileName);
    var i := 0;
    while i < |keys|
      invariant 0 <= i <= |keys|
      invariant parser.Valid()
      invariant forall j :: i <= j < |keys| ==> HasOption(parser.State(), profileName, keys[j])
      invariant ApplyKeys(parser.State(), profileName, keys[i..]) == Overrides(old(parser.State()), profileName)
    {
      ApplyKey(parser, profileName, keys[i]);
      assert keys[i..][1..] == keys[i + 1..];
      i := i + 1;
    }
  }

  /** One iteration of the loop: `parser[profile][key]` is read now, then
      written to DEFAULT or to the key's section, which is added if absent. */
  method ApplyKey(parser: ConfigParser, profileName: string, key: string)
    requires parser.Valid() && HasOption(parser.State(), profileName, key) && IsLower(key)
    modifies parser
    ensures parser.Valid()
    ensures parser.State() == ApplyOne(old(parser.State()), profileName, key)
  {
    ghost var t := parser.State();
    ApplyOneWrites(t, profileName, key);
    var value := Lookup(parser.State(), profileName, key);
    var parts := SplitOnce(key, '.');
    if parts.Some? {
      var section, opt := parts.value.0, parts.value.1;
      if !parser.HasSection(section) {
        parser.sections := parser.sections[section := EmptyDict];
      }
      assert parser.State() == EnsureSection(t, section);
      if section == "" || section == DefaultSection {
        parser.defaults := parser.defaults.Put(Lower(opt), value);
      } else {
        parser.sections := parser.sections[section := parser.sections[section].Put(Lower(opt), value)];
      }
      assert parser.State() == SetOption(EnsureSection(t, section), section, opt, value);
    } else {
      parser.defaults := parser.defaults.Put(Lower(key), value);
    }
  }

  /** The parser object: the DEFAULT section and the named sections. */
  class ConfigParser {
    var defaults: OrderedDict
    var sections: map<string, OrderedDict>

    function State(): Table
      reads this
    {
      Table(defaults, sections)
    }

    ghost predicate Valid()
      reads this
    {
      TableOk(State())
    }

    /** The parser as reading the INI file leaves it. */
    constructor (t: Table)
      requires TableOk(t)
      ensures Valid() && State() == t
    {
      defaults := t.defaults;
      sections := t.sections;
    }

    /** `has_section(name)`: DEFAULT is never reported as a section. */
    predicate HasSection(name: string)
      reads this
    {
      name in sections
    }
  }

  // ---------------------------------------------------------------------
  // Properties of the override loop
  // ---------------------------------------------------------------------

  /** Without a section named exactly like the profile, the table is left unchanged. */
  lemma MissingProfileIsNoOp(t: Table, profile: string)
    requires TableOk(t) && profile !in t.sections
    ensures Overrides(t, profile) == t
  {
  }

  /** A dotted key splits at its first `.` only: `a.b.c` writes option `b.c` of section `a`. */
  lemma {:induction false} TargetOfDotted(section: string, option: string)
    requires '.' !in section && section != ""
    ensures Target(section + "." + option) == (section, option)
  {
    SplitOnceOf(section, '.', option);
  }

  /** A profile key is lower-cased before it is split: `Database.host` targets
      option `host` of section `database`, not of `Database`. */
  lemma DottedKeyIsLowerCased(section: string, option: string)
    requires '.' !in section && section != ""
    ensures Target(Lower(section + "." + option)) == (Lower(section), Lower(option))
  {
    LowerAppend(section + ".", option);
    LowerAppend(section, ".");
    assert Lower(".") == ".";
    assert '.' !in Lower(section);
    TargetOfDotted(Lower(section), Lower(option));
  }

  /** Running the loop over `keys + [k]` is running it over `keys`, then one more step. */
  lemma {:induction false} ApplyKeysAppend(t: Table, profile: string, keys: seq<string>, k: string)
    requires forall i :: 0 <= i < |keys| ==> HasOption(t, profile, keys[i])
    requires HasOption(t, profile, k)
    ensures HasOption(ApplyKeys(t, profile, keys), profile, k)
    ensures ApplyKeys(t, profile, keys + [k]) == ApplyOne(ApplyKeys(t, profile, keys), profile, k)
    decreases |keys|
  {
    if keys == [] {
      assert keys + [k] == [k];
    } else {
      assert (keys + [k])[1..] == keys[1..] + [k];
      ApplyKeysAppend(ApplyOne(t, profile, keys[0]), profile, keys[1..], k);
    }
  }

  /** Overrides apply in iteration order: whatever the earlier keys wrote,
      the target of the last key holds the value that key read. */
  lemma LastKeyWins(t: Table, profile: string, keys: seq<string>, k: string)
    requires TableOk(t)
    requires forall i :: 0 <= i < |keys| ==> HasOption(t, profile, keys[i]) && IsLower(keys[i])
    requires HasOption(t, profile, k) && IsLower(k)
    ensures Get(ApplyKeys(t, profile, keys + [k]), Target(k))
            == Some(Lookup(ApplyKeys(t, profile, keys), profile, k))
  {
    ApplyKeysAppend(t, profile, keys, k);
    ApplyKeysOk(t, profile, keys);
    ApplyOneWrites(ApplyKeys(t, profile, keys), profile, k);
  }

  /** The loop keeps the table well formed. */
  lemma {:induction false} ApplyKeysOk(t: Table, profile: string, keys: seq<string>)
    requires TableOk(t)
    requires forall i :: 0 <= i < |keys| ==> HasOption(t, profile, keys[i]) && IsLower(keys[i])
    ensures TableOk(ApplyKeys(t, profile, keys))
    decreases |keys|
  {
    if keys != [] {
      ApplyOneWrites(t, profile, keys[0]);
      ApplyKeysOk(ApplyOne(t, profile, keys[0]), profile, keys[1..]);
    }
  }

  /** A section whose name has an upper-case letter (such as `ComponentA`) is
      never written by a step: every profile key is lower-cased on reading. */
  lemma ApplyOneKeepsSection(t: Table, profile: string, key: string, s: string)
    requires HasOption(t, profile, key) && IsLower(key) && s in t.sections && !IsLower(s)
    ensures s in ApplyOne(t, profile, key).sections
    ensures ApplyOne(t, profile, key).sections[s] == t.sections[s]
  {
    if '.' in key {
      DottedParts(key);
    }
  }

  lemma {:induction false} ApplyKeysKeepsSection(t: Table, profile: string, keys: seq<string>, s: string)
    requires s in t.sections && !IsLower(s)
    requires forall i :: 0 <= i < |keys| ==> HasOption(t, profile, keys[i]) && IsLower(keys[i])
    ensures s in ApplyKeys(t, profile, keys).sections
    ensures ApplyKeys(t, profile, keys).sections[s] == t.sections[s]
    decreases |keys|
  {
    if keys != [] {
      ApplyOneKeepsSection(t, profile, keys[0], s);
      ApplyKeysKeepsSection(ApplyOne(t, profile, keys[0]), profile, keys[1..], s);
    }
  }

  /** The override loop leaves every section with an upper-case letter in its name as it was. */
  lemma UpperCaseSectionUntouched(t: Table, profile: string, s: string)
    requires TableOk(t) && s in t.sections && !IsLower(s)
    ensures s in Overrides(t, profile).sections && Overrides(t, profile).sections[s] == t.sections[s]
  {
    if profile in t.sections {
      OptionsFacts(t, profile);
      ApplyKeysKeepsSection(t, profile, Options(t, profile), s);
    }
  }

  // --- Keys that do not write where the profile reads ---------------------

  /** A dotted key whose write lands where the profile section itself reads:
      its own section, or DEFAULT through an empty section part. */
  predicate ReachesProfile(profile: string, key: string) {
    var parts := SplitOnce(key, '.');
    parts.Some? && (parts.value.0 == profile || parts.value.0 == "")
  }

  predicate Independent(profile: string, keys: seq<string>) {
    forall i :: 0 <= i < |keys| ==> !ReachesProfile(profile, keys[i])
  }

  /** Every place the loop writes for `keys`. */
  function Targets(keys: seq<string>): set<(string, string)> {
    if keys == [] then {} else {Target(keys[0])} + Targets(keys[1..])
  }

  /** Keys that do not reach the profile have distinct targets. */
  lemma TargetInjective(profile: string, a: string, b: string)
    requires IsLower(a) && IsLower(b) && !ReachesProfile(profile, a) && !ReachesProfile(profile, b)
    requires Target(a) == Target(b)
    ensures a == b
  {
    if '.' in a {
      DottedParts(a);
    }
    if '.' in b {
      DottedParts(b);
    }
  }

  lemma {:induction false} TargetsOf(keys: seq<string>, loc: (string, string))
    requires loc in Targets(keys)
    ensures exists i :: 0 <= i < |keys| && Target(keys[i]) == loc
    decreases |keys|
  {
    if Target(keys[0]) != loc {
      TargetsOf(keys[1..], loc);
      var i :| 0 <= i < |keys[1..]| && Target(keys[1..][i]) == loc;
      assert Target(keys[i + 1]) == loc;
    }
  }

  /** A key that is not repeated later is not written again later. */
  lemma {:induction false} TargetNotAgain(profile: string, key: string, rest: seq<string>)
    requires IsLower(key) && !ReachesProfile(profile, key)
    requires forall i :: 0 <= i < |rest| ==> IsLower(rest[i]) && !ReachesProfile(profile, rest[i]) && rest[i] != key
    ensures Target(key) !in Targets(rest)
    decreases |rest|
  {
    if rest != [] {
      if Target(rest[0]) == Target(key) {
        TargetInjective(profile, rest[0], key);
      }
      TargetNotAgain(profile, key, rest[1..]);
    }
  }

  /** What the target of an independent key can be. */
  lemma TargetShape(profile: string, key: string)
    requires IsLower(key) && !ReachesProfile(profile, key) && profile != DefaultSection
    ensures Target(key).0 != profile
    ensures Target(key).0 == DefaultSection ==> '.' !in key && Target(key).1 == key
  {
    if '.' in key {
      DottedParts(key);
    }
  }

  /** One independent step writes its target and nothing else; the profile
      section and the DEFAULT options it inherits stay as they were. */
  lemma ApplyOneEffect(t: Table, profile: string, key: string)
    requires TableOk(t) && profile in t.sections && HasOption(t, profile, key)
    requires IsLower(key) && !ReachesProfile(profile, key)
    ensures TableOk(ApplyOne(t, profile, key))
    ensures profile in ApplyOne(t, profile, key).sections
    ensures ApplyOne(t, profile, key).sections[profile] == t.sections[profile]
    ensures Get(ApplyOne(t, profile, key), Target(key)) == Some(Lookup(t, profile, key))
    ensures forall loc :: loc != Target(key) ==> Get(ApplyOne(t, profile, key), loc) == Get(t, loc)
    ensures Unshadowed(ApplyOne(t, profile, key).defaults.keys, t.sections[profile].values)
            == Unshadowed(t.defaults.keys, t.sections[profile].values)
  {
    ApplyOneWrites(t, profile, key);
    TargetShape(profile, key);
    if '.' in key {
      DottedEffect(t, profile, key);
    } else {
      UndottedEffect(t, profile, key);
    }
  }

  lemma DottedEffect(t: Table, profile: string, key: string)
    requires TableOk(t) && profile in t.sections && HasOption(t, profile, key)
    requires IsLower(key) && !ReachesProfile(profile, key) && '.' in key
    ensures ApplyOne(t, profile, key).sections[profile] == t.sections[profile]
    ensures forall loc :: loc != Target(key) ==> Get(ApplyOne(t, profile, key), loc) == Get(t, loc)
    ensures ApplyOne(t, profile, key).defaults == t.defaults
  {
    TargetShape(profile, key);
    var p := SplitOnce(key, '.').value;
    assert Target(key) == p;
    ApplyOneDotted(t, profile, key);
    SectionPutFrame(t, ApplyOne(t, profile, key), p.0, p.1, Lookup(t, profile, key));
  }

  /** Replacing one option of one named section leaves every other location as it was. */
  lemma SectionPutFrame(t: Table, r: Table, sec: string, opt: string, v: string)
    requires sec != DefaultSection
    requires r.defaults == t.defaults && r.sections == t.sections[sec := SectionOrEmpty(t, sec).Put(opt, v)]
    ensures forall loc :: loc != (sec, opt) ==> Get(r, loc) == Get(t, loc)
  {
    forall loc | loc != (sec, opt) ensures Get(r, loc) == Get(t, loc) {
      if loc.0 == sec {
        assert r.sections[sec].values == SectionOrEmpty(t, sec).values[opt := v];
      }
    }
  }

  lemma UndottedEffect(t: Table, profile: string, key: string)
    requires TableOk(t) && profile in t.sections && HasOption(t, profile, key)
    requires IsLower(key) && '.' !in key
    ensures ApplyOne(t, profile, key).sections == t.sections
    ensures forall loc :: loc != Target(key) ==> Get(ApplyOne(t, profile, key), loc) == Get(t, loc)
    ensures Unshadowed(ApplyOne(t, profile, key).defaults.keys, t.sections[profile].values)
            == Unshadowed(t.defaults.keys, t.sections[profile].values)
  {
    ApplyOneUndotted(t, profile, key);
    assert Target(key) == (DefaultSection, key);
    if key !in t.defaults.values {
      UnshadowedAppend(t.defaults.keys, t.sections[profile].values, key);
    }
  }

  /** An independent step does not change what the profile shows for another key. */
  lemma StepKeepsLookup(t: Table, profile: string, key: string, x: string)
    requires TableOk(t) && profile in t.sections && HasOption(t, profile, key) && HasOption(t, profile, x)
    requires IsLower(key) && !ReachesProfile(profile, key) && IsLower(x) && x != key
    ensures HasOption(ApplyOne(t, profile, key), profile, x)
    ensures Lookup(ApplyOne(t, profile, key), profile, x) == Lookup(t, profile, x)
  {
    ApplyOneEffect(t, profile, key);
    TargetShape(profile, key);
    LookupFrame(t, ApplyOne(t, profile, key), profile, x);
  }

  /** The characterisation of the loop for independent keys: each key's
      target ends up holding the value the key had before the loop; nothing
      else changes; the profile section itself is untouched; and the DEFAULT
      options that the profile inherits keep their order. */
  lemma {:induction false} ApplyKeysEffect(t: Table, profile: string, keys: seq<string>)
    requires TableOk(t) && profile in t.sections
    requires Distinct(keys) && Independent(profile, keys)
    requires forall i :: 0 <= i < |keys| ==> HasOption(t, profile, keys[i]) && IsLower(keys[i])
    ensures TableOk(ApplyKeys(t, profile, keys))
    ensures profile in ApplyKeys(t, profile, keys).sections
    ensures ApplyKeys(t, profile, keys).sections[profile] == t.sections[profile]
    ensures forall i :: 0 <= i < |keys| ==>
              Get(ApplyKeys(t, profile, keys), Target(keys[i])) == Some(Lookup(t, profile, keys[i]))
    ensures forall loc :: loc !in Targets(keys) ==> Get(ApplyKeys(t, profile, keys), loc) == Get(t, loc)
    ensures Unshadowed(ApplyKeys(t, profile, keys).defaults.keys, t.sections[profile].values)
            == Unshadowed(t.defaults.keys, t.sections[profile].values)
    decreases |keys|
  {
    if keys != [] {
      var key := keys[0];
      var rest := keys[1..];
      ApplyOneEffect(t, profile, key);
      var t1 := ApplyOne(t, profile, key);
      forall i | 0 <= i < |rest|
        ensures HasOption(t1, profile, rest[i]) && Lookup(t1, profile, rest[i]) == Lookup(t, profile, rest[i])
      {
        assert rest[i] == keys[i + 1];
        StepKeepsLookup(t, profile, key, rest[i]);
      }
      assert forall i :: 0 <= i < |rest| ==> rest[i] == keys[i + 1];
      ApplyKeysEffect(t1, profile, rest);
      TargetNotAgain(profile, key, rest);
      var r := ApplyKeys(t1, profile, rest);
      assert r == ApplyKeys(t, profile, keys);
      assert Targets(keys) == {Target(key)} + Targets(rest);
      forall i | 0 <= i < |keys|
        ensures Get(r, Target(keys[i])) == Some(Lookup(t, profile, keys[i]))
      {
        if i > 0 {
          assert keys[i] == rest[i - 1];
        }
      }
    }
  }

  /** For independent keys, the values the profile shows are the same after the loop. */
  lemma LookupsStable(t: Table, profile: string, keys: seq<string>)
    requires TableOk(t) && profile in t.sections
    requires Distinct(keys) && Independent(profile, keys)
    requires forall i :: 0 <= i < |keys| ==> HasOption(t, profile, keys[i]) && IsLower(keys[i])
    ensures forall i :: 0 <= i < |keys| ==>
              HasOption(ApplyKeys(t, profile, keys), profile, keys[i])
              && Lookup(ApplyKeys(t, profile, keys), profile, keys[i]) == Lookup(t, profile, keys[i])
  {
    ApplyKeysEffect(t, profile, keys);
    var r := ApplyKeys(t, profile, keys);
    forall i | 0 <= i < |keys|
      ensures HasOption(r, profile, keys[i]) && Lookup(r, profile, keys[i]) == Lookup(t, profile, keys[i])
    {
      var x := keys[i];
      if (profile, x) in Targets(keys) {
        TargetsOf(keys, (profile, x));
        var j :| 0 <= j < |keys| && Target(keys[j]) == (profile, x);
        TargetShape(profile, keys[j]);
      }
      if (DefaultSection, x) in Targets(keys) {
        TargetsOf(keys, (DefaultSection, x));
        var j :| 0 <= j < |keys| && Target(keys[j]) == (DefaultSection, x);
        TargetShape(profile, keys[j]);
        assert keys[j] == x;
      } else {
        LookupFrame(t, r, profile, x);
      }
    }
  }

  /** A loop whose every key's target already holds the value the key reads changes nothing. */
  lemma {:induction false} ApplyKeysNoop(t: Table, profile: string, keys: seq<string>)
    requires TableOk(t) && profile in t.sections && Independent(profile, keys)
    requires forall i :: 0 <= i < |keys| ==>
               HasOption(t, profile, keys[i]) && IsLower(keys[i])
               && Get(t, Target(keys[i])) == Some(Lookup(t, profile, keys[i]))
    ensures ApplyKeys(t, profile, keys) == t
    decreases |keys|
  {
    if keys != [] {
      var key := keys[0];
      if '.' in key {
        DottedParts(key);
        var p := SplitOnce(key, '.').value;
        LowerOfLower(p.1);
        PutSame(t.sections[p.0], p.1);
        assert t.sections[p.0 := t.sections[p.0]] == t.sections;
      } else {
        LowerOfLower(key);
        PutSame(t.defaults, key);
      }
      assert ApplyOne(t, profile, key) == t;
      ApplyKeysNoop(t, profile, keys[1..]);
    }
  }

  /** Applying a profile twice is applying it once, as long as no dotted key
      of the profile writes where the profile itself reads. */
  lemma OverridesIdempotent(t: Table, profile: string)
    requires TableOk(t)
    requires profile in t.sections ==> Independent(profile, Options(t, profile))
    ensures Overrides(Overrides(t, profile), profile) == Overrides(t, profile)
  {
    if profile in t.sections {
      OptionsFacts(t, profile);
      var keys := Options(t, profile);
      ApplyKeysEffect(t, profile, keys);
      LookupsStable(t, profile, keys);
      var r := ApplyKeys(t, profile, keys);
      assert Options(r, profile) == keys;
      ApplyKeysNoop(r, profile, keys);
    }
  }

  /** A profile `p` holding `x = 0` and then `p.x = 1`; its key `p.x` writes
      into `p` itself. */
  function SelfTargeting(): Table {
    Table(EmptyDict, map["p" := OrderedDict(["x", "p.x"], map["x" := "0", "p.x" := "1"])])
  }

  lemma SelfTargetingOk()
    ensures TableOk(SelfTargeting())
    ensures Options(SelfTargeting(), "p") == ["x", "p.x"]
  {
    assert IsLower("x") && IsLower("p.x");
  }

  /** One pass over a profile `p` whose keys are `x` and then `p.x`: `x` is
      copied into DEFAULT, then `p.x` rewrites `p`'s own `x`. */
  lemma TwoStepPass(t: Table, p: string, x: string)
    requires TableOk(t) && p in t.sections && Options(t, p) == [x, p + "." + x]
    requires '.' !in p && p != "" && '.' !in x
    ensures HasOption(t, p, x) && HasOption(t, p, p + "." + x)
    ensures Overrides(t, p).defaults == t.defaults.Put(x, Lookup(t, p, x))
    ensures p in Overrides(t, p).sections
    ensures Overrides(t, p).sections[p] == t.sections[p].Put(x, Lookup(t, p, p + "." + x))
  {
    var d := p + "." + x;
    OptionsFacts(t, p);
    assert Options(t, p)[0] == x && Options(t, p)[1] == d;
    ApplyKeysAppend(t, p, [x], d);
    assert [x] + [d] == [x, d];
    var t1 := ApplyOne(t, p, x);
    assert ApplyKeys(t, p, [x]) == t1;
    FirstStep(t, p, x);
    SecondStep(t1, p, x);
    assert x != d;
    assert Lookup(t1, p, d) == Lookup(t, p, d);
  }

  lemma FirstStep(t: Table, p: string, x: string)
    requires TableOk(t) && HasOption(t, p, x) && IsLower(x) && '.' !in x
    ensures TableOk(ApplyOne(t, p, x))
    ensures ApplyOne(t, p, x).defaults == t.defaults.Put(x, Lookup(t, p, x))
    ensures ApplyOne(t, p, x).sections == t.sections
  {
    ApplyOneUndotted(t, p, x);
    ApplyOneWrites(t, p, x);
  }

  lemma SecondStep(t: Table, p: string, x: string)
    requires TableOk(t) && HasOption(t, p, p + "." + x) && IsLower(p + "." + x)
    requires '.' !in p && p != ""
    ensures ApplyOne(t, p, p + "." + x).defaults == t.defaults
    ensures p in ApplyOne(t, p, p + "." + x).sections
    ensures ApplyOne(t, p, p + "." + x).sections[p] == t.sections[p].Put(x, Lookup(t, p, p + "." + x))
  {
    var d := p + "." + x;
    assert d == p + ['.'] + x;
    SplitOnceOf(p, '.', x);
    ApplyOneDotted(t, p, d);
  }

  /** Without that condition, applying twice can differ from applying once:
      the first pass copies `0` into DEFAULT before `p.x` rewrites `p`'s own
      `x`; the second pass copies `1`. */
  lemma SelfTargetBreaksIdempotence()
    ensures TableOk(SelfTargeting())
    ensures Overrides(Overrides(SelfTargeting(), "p"), "p") != Overrides(SelfTargeting(), "p")
  {
    var t := SelfTargeting();
    SelfTargetingOk();
    assert "p.x" == "p" + "." + "x";
    TwoStepPass(t, "p", "x");
    var r1 := Overrides(t, "p");
    assert r1.defaults.values["x"] == "0";
    assert r1.sections["p"].values["x"] == "1";
    ExampleOptionsAfterPass(t, r1);
    TwoStepPass(r1, "p", "x");
    assert Overrides(r1, "p").defaults.values["x"] == "1";
  }

  lemma ExampleOptionsAfterPass(t: Table, r: Table)
    requires t == SelfTargeting() && TableOk(r) && "p" in r.sections
    requires r.sections["p"].keys == t.sections["p"].keys && "x" in r.sections["p"].values
    requires r.defaults.keys == ["x"]
    ensures Options(r, "p") == ["x", "p.x"]
  {
    assert Unshadowed(r.defaults.keys, r.sections["p"].values) == [];
  }

  /** DEFAULT holding `.x = 0` and then `..x = 1`, and an empty profile `p`,
      which shows both options through DEFAULT. Both keys have an empty
      section part, so both write into DEFAULT. */
  function EmptySectionPart(): Table {
    Table(OrderedDict([".x", "..x"], map[".x" := "0", "..x" := "1"]), map["p" := EmptyDict])
  }

  lemma EmptyPartKeysHold()
    ensures EmptyPartKeys("x", ".x", "..x")
  {
    assert SplitOnce(".x", '.') == Some(("", "x"));
    assert SplitOnce("..x", '.') == Some(("", ".x"));
  }

  lemma EmptyPartTableOk()
    ensures TableOk(EmptySectionPart())
  {
    assert IsLower(".x") && IsLower("..x");
  }

  /** Nothing is shadowed by a section without options. */
  lemma {:induction false} UnshadowedByNothing(keys: seq<string>)
    ensures Unshadowed(keys, map[]) == keys
  {
    if keys != [] {
      UnshadowedByNothing(keys[1..]);
    }
  }

  /** Under a profile without options of its own, a key `.o` of DEFAULT copies
      DEFAULT's value of that key into `DEFAULT[o]`; the profile stays empty. */
  lemma EmptyPartStep(t: Table, p: string, key: string, o: string)
    requires p in t.sections && t.sections[p] == EmptyDict && p != ""
    requires key in t.defaults.values && IsLower(o) && SplitOnce(key, '.') == Some(("", o))
    ensures HasOption(t, p, key)
    ensures var u := ApplyOne(t, p, key);
            && p in u.sections && u.sections[p] == EmptyDict
            && u.defaults == t.defaults.Put(o, t.defaults.values[key])
  {
    LowerOfLower(o);
  }

  /** The same happens through an empty section part: the first pass copies
      `.x`'s `0` into `DEFAULT[x]` before `..x` rewrites `.x` to `1`; the
      second pass copies `1`. */
  lemma EmptyPartBreaksIdempotence()
    ensures TableOk(EmptySectionPart())
    ensures Get(Overrides(EmptySectionPart(), "p"), (DefaultSection, "x")) == Some("0")
    ensures Get(Overrides(Overrides(EmptySectionPart(), "p"), "p"), (DefaultSection, "x")) == Some("1")
  {
    EmptyPartKeysHold();
    EmptyPartTableOk();
    EmptyPartFirstPass(EmptySectionPart(), "x", ".x", "..x", "0", "1");
    EmptyPartSecondPass(Overrides(EmptySectionPart(), "p"), "x", ".x", "..x", "1");
  }

  /** A profile without options of its own applies DEFAULT's options in order. */
  lemma OverridesOfEmptyProfile(t: Table, p: string)
    requires TableOk(t) && p in t.sections && t.sections[p] == EmptyDict
    ensures forall i :: 0 <= i < |t.defaults.keys| ==> HasOption(t, p, t.defaults.keys[i])
    ensures Overrides(t, p) == ApplyKeys(t, p, t.defaults.keys)
  {
    UnshadowedByNothing(t.defaults.keys);
    assert Options(t, p) == t.defaults.keys;
    forall i | 0 <= i < |t.defaults.keys| ensures HasOption(t, p, t.defaults.keys[i]) {
      assert t.defaults.keys[i] in t.defaults.values;
    }
  }

  /** The keys `x`, `.x` and `..x` under other names. */
  predicate EmptyPartKeys(x: string, k1: string, k2: string) {
    && IsLower(x) && IsLower(k1) && IsLower(k2)
    && x != k1 && x != k2 && k1 != k2
    && SplitOnce(x, '.') == None
    && SplitOnce(k1, '.') == Some(("", x))
    && SplitOnce(k2, '.') == Some(("", k1))
  }

  lemma EmptyPartFirstPass(t: Table, x: string, k1: string, k2: string, v0: string, v1: string)
    requires EmptyPartKeys(x, k1, k2) && TableOk(t)
    requires t == Table(OrderedDict([k1, k2], map[k1 := v0, k2 := v1]), map["p" := EmptyDict])
    ensures var r := Overrides(t, "p");
            && "p" in r.sections && r.sections["p"] == EmptyDict
            && r.defaults.keys == [k1, k2, x] && k2 in r.defaults.values
            && x in r.defaults.values && r.defaults.values[x] == v0
            && k1 in r.defaults.values && r.defaults.values[k1] == v1
  {
    OverridesOfEmptyProfile(t, "p");
    FirstPassSteps(t, x, k1, k2, v0, v1);
  }

  lemma FirstPassSteps(t: Table, x: string, k1: string, k2: string, v0: string, v1: string)
    requires EmptyPartKeys(x, k1, k2)
    requires "p" in t.sections && t.sections["p"] == EmptyDict
    requires t.defaults.keys == [k1, k2] && t.defaults.values == map[k1 := v0, k2 := v1]
    ensures forall i :: 0 <= i < |t.defaults.keys| ==> HasOption(t, "p", t.defaults.keys[i])
    ensures var r := ApplyKeys(t, "p", t.defaults.keys);
            && "p" in r.sections && r.sections["p"] == EmptyDict
            && r.defaults.keys == [k1, k2, x] && k2 in r.defaults.values
            && x in r.defaults.values && r.defaults.values[x] == v0
            && k1 in r.defaults.values && r.defaults.values[k1] == v1
  {
    DottedPairSteps(t, x, k1, k2, t.defaults.keys);
    assert t.defaults.keys[2..] == [];
  }

  /** The two keys `.x` and `..x` at the head of the loop: `DEFAULT[x]` gets
      the value of `.x`, then `DEFAULT[.x]` the value of `..x`. */
  lemma DottedPairSteps(t: Table, x: string, k1: string, k2: string, ks: seq<string>)
    requires EmptyPartKeys(x, k1, k2)
    requires "p" in t.sections && t.sections["p"] == EmptyDict
    requires |ks| >= 2 && ks[0] == k1 && ks[1] == k2
    requires forall i :: 0 <= i < |ks| ==> ks[i] in t.defaults.values
    ensures forall i :: 0 <= i < |ks| ==> HasOption(t, "p", ks[i])
    ensures var u := ApplyOne(ApplyOne(t, "p", k1), "p", k2);
            && ApplyKeys(t, "p", ks) == ApplyKeys(u, "p", ks[2..])
            && "p" in u.sections && u.sections["p"] == EmptyDict
            && u.defaults == t.defaults.Put(x, t.defaults.values[k1]).Put(k1, t.defaults.values[k2])
  {
    EmptyPartStep(t, "p", k1, x);
    var t1 := ApplyOne(t, "p", k1);
    assert ApplyKeys(t, "p", ks) == ApplyKeys(t1, "p", ks[1..]);
    EmptyPartStep(t1, "p", k2, k1);
    var u := ApplyOne(t1, "p", k2);
    assert ApplyKeys(t1, "p", ks[1..]) == ApplyKeys(u, "p", ks[1..][1..]);
    assert ks[1..][1..] == ks[2..];
  }

  lemma EmptyPartSecondPass(r: Table, x: string, k1: string, k2: string, v1: string)
    requires EmptyPartKeys(x, k1, k2)
    requires TableOk(r) && "p" in r.sections && r.sections["p"] == EmptyDict
    requires r.defaults.keys == [k1, k2, x] && r.defaults.values[k1] == v1
    ensures Get(Overrides(r, "p"), (DefaultSection, x)) == Some(v1)
  {
    OverridesOfEmptyProfile(r, "p");
    SecondPassSteps(r, x, k1, k2, v1);
  }

  lemma SecondPassSteps(r: Table, x: string, k1: string, k2: string, v1: string)
    requires EmptyPartKeys(x, k1, k2)
    requires "p" in r.sections && r.sections["p"] == EmptyDict
    requires r.defaults.keys == [k1, k2, x] && k1 in r.defaults.values && k2 in r.defaults.values
    requires x in r.defaults.values && r.defaults.values[k1] == v1
    ensures forall i :: 0 <= i < |r.defaults.keys| ==> HasOption(r, "p", r.defaults.keys[i])
    ensures Get(ApplyKeys(r, "p", r.defaults.keys), (DefaultSection, x)) == Some(v1)
  {
    var ks := r.defaults.keys;
    DottedPairSteps(r, x, k1, k2, ks);
    var u := ApplyOne(ApplyOne(r, "p", k1), "p", k2);
    assert u.defaults.values[x] == v1;
    assert ks[2..] == [x];
    LowerOfLower(x);
    assert ApplyKeys(u, "p", [x]) == ApplyKeys(ApplyOne(u, "p", x), "p", []);
  }

  // ---------------------------------------------------------------------
  // Environment, secret gate and settings
  // ---------------------------------------------------------------------

  /** The process environment. */
  type Env = map<string, string>

  const ProfileVariable := "APP_ENV"
  const DefaultProfile := "development"
  const ProductionProfile := "production"
  const SecretVariable := "SECRET_VARIABLE"

  /** `os.getenv(name)`. */
  function EnvGet(env: Env, name: string): Option<string> {
    if name in env then Some(env[name]) else None
  }

  /** `APP_ENV = os.getenv("APP_ENV", "development").strip()`. */
  function ActiveProfile(env: Env): (profile: string)
    ensures NoEdgeSpace(PythonSpace, profile)
    ensures ProfileVariable !in env ==> profile == DefaultProfile
    ensures ProfileVariable in env ==> exists i :: TrimmedSlice(PythonSpace, env[ProfileVariable], profile, i)
  {
    StripKeepsTrimmed(PythonSpace, DefaultProfile);
    if ProfileVariable in env then Strip(PythonSpace, env[ProfileVariable]) else DefaultProfile
  }

  /** Why the process does not start, or `get_settings()` raises: the missing
      file, the missing production secret, the `RuntimeError("Configuration
      validation failed: ...")` made from a validation error (which keeps that
      error's location, not pydantic's rendering of it), or pydantic-settings'
      own error for a variable it cannot decode, which propagates unchanged. */
  datatype StartupError =
    | ConfigFileNotFound
    | SecretMissing
    | ConfigInvalid(loc: seq<string>)
    | SettingsSourceError(field: string)

  /** The production secret check: `production` needs a non-empty SECRET_VARIABLE. */
  function SecretGate(profile: string, secret: Option<string>): (failure: Option<StartupError>)
    ensures failure.Some? <==> profile == ProductionProfile && (secret == None || secret == Some(""))
    ensures failure.Some? ==> failure.value == SecretMissing
  {
    if profile == ProductionProfile && (secret.None? || secret.value == "") then Some(SecretMissing)
    else None
  }

  /** Index `i` is the first alias that is set. */
  predicate FirstSet(env: Env, aliases: seq<string>, i: int) {
    0 <= i < |aliases| && aliases[i] in env && forall j :: 0 <= j < i ==> aliases[j] !in env
  }

  /** pydantic's `AliasChoices(...)` over the environment: the value of the first alias that is set. */
  function AliasValue(env: Env, aliases: seq<string>): (r: Option<string>)
    ensures r.None? <==> forall i :: 0 <= i < |aliases| ==> aliases[i] !in env
    ensures forall i :: FirstSet(env, aliases, i) ==> r == Some(env[aliases[i]])
  {
    if aliases == [] then None
    else if aliases[0] in env then Some(env[aliases[0]])
    else
      assert forall i :: FirstSet(env, aliases, i) ==> i > 0 && FirstSet(env, aliases[1..], i - 1);
      AliasValue(env, aliases[1..])
  }

  /** A field with one alias reads exactly that variable. */
  lemma SingleAlias(env: Env, name: string)
    ensures AliasValue(env, [name]) == EnvGet(env, name)
  {
    assert name in env ==> FirstSet(env, [name], 0);
  }

  function OrElse(o: Option<string>, default: string): string {
    if o.Some? then o.value else default
  }

  const ComponentASection := "ComponentA"

  /** The option `compA_variable` as ConfigParser stores it, lower-cased. */
  const CompAOption := "compa_variable"

  /** `ComponentA_cfg.get("compA_variable", "")` on the merged table. The
      option name is lower-cased like every option name; when there is no
      `ComponentA` section the lookup is on an empty dict, so DEFAULT is not
      consulted. */
  function IniCompAVariable(t: Table): (v: string)
    ensures ComponentASection in t.sections && HasOption(t, ComponentASection, CompAOption)
            ==> v == Lookup(t, ComponentASection, CompAOption)
    ensures !(ComponentASection in t.sections && HasOption(t, ComponentASection, CompAOption))
            ==> v == ""
  {
    if ComponentASection in t.sections && HasOption(t, ComponentASection, CompAOption) then
      Lookup(t, ComponentASection, CompAOption)
    else ""
  }

  const CompAAliases := ["COMP_A_VARIABLE", "COMPA_VARIABLE"]

  /** `ApConfig`: the settings of ComponentA. */
  datatype ApConfig = ApConfig(compAVariable: string)

  /** `ApConfig().compA_variable`: COMP_A_VARIABLE if set, else COMPA_VARIABLE
      if set, else the INI value. */
  function CompAVariable(env: Env, iniValue: string): (v: string)
    ensures "COMP_A_VARIABLE" in env ==> v == env["COMP_A_VARIABLE"]
    ensures "COMP_A_VARIABLE" !in env && "COMPA_VARIABLE" in env ==> v == env["COMPA_VARIABLE"]
    ensures "COMP_A_VARIABLE" !in env && "COMPA_VARIABLE" !in env ==> v == iniValue
  {
    assert "COMP_A_VARIABLE" in env ==> FirstSet(env, CompAAliases, 0);
    assert "COMP_A_VARIABLE" !in env && "COMPA_VARIABLE" in env ==> FirstSet(env, CompAAliases, 1);
    OrElse(AliasValue(env, CompAAliases), iniValue)
  }

  // --- The nested `componentA` field ------------------------------------

  /** The name of the nested field of `Settings`, which is also the name of
      the variable pydantic-settings reads for it, since `env_prefix` is empty. */
  const ComponentAField := "componentA"

  /** That variable as pydantic-settings reads it: unset, set to text that is
      not JSON, or set to a JSON value, which it decodes. */
  datatype NestedVariable = Unset | Undecodable | Decoded(value: Json.Value)

  /** The first alias of `compA_variable` that is a key of `fields`. */
  function NestedAlias(fields: map<string, Json.Value>): (a: Option<string>)
    ensures a.None? <==> "COMP_A_VARIABLE" !in fields && "COMPA_VARIABLE" !in fields
    ensures "COMP_A_VARIABLE" in fields ==> a == Some("COMP_A_VARIABLE")
    ensures "COMP_A_VARIABLE" !in fields && "COMPA_VARIABLE" in fields ==> a == Some("COMPA_VARIABLE")
  {
    if CompAAliases[0] in fields then Some(CompAAliases[0])
    else if CompAAliases[1] in fields then Some(CompAAliases[1])
    else None
  }

  /** A decoded value that `ApConfig` rejects: not an object, or an object
      whose first alias key holds something other than a string. */
  predicate NestedRejected(v: Json.Value) {
    !v.Object? || (NestedAlias(v.fields).Some? && !v.fields[NestedAlias(v.fields).value].Str?)
  }

  /** Whether `Settings()` raises because of the variable: undecodable, or rejected. */
  predicate NestedInvalid(nested: NestedVariable) {
    nested.Undecodable? || (nested.Decoded? && NestedRejected(nested.value))
  }

  /** Why `Settings()` raises: pydantic's `ValidationError` at location `loc`,
      or pydantic-settings' `SettingsError` naming the field whose variable it
      could not decode. */
  datatype SettingsFailure = ValidationFailed(loc: seq<string>) | SourceFailed(field: string)

  /** The `componentA` field of `Settings()`. With the variable unset it is the
      `ApConfig()` built at import. Otherwise `ApConfig` is validated from the
      decoded value: the first alias key present gives `compA_variable`, the
      INI value stays the default, other keys are ignored, and the alias
      variables of the environment are not consulted. */
  function ComponentA(env: Env, nested: NestedVariable, iniValue: string): (r: Result<ApConfig, SettingsFailure>)
    ensures r.Err? <==> NestedInvalid(nested)
    ensures nested.Undecodable? ==> r == Err(SourceFailed(ComponentAField))
    ensures nested.Decoded? && r.Err? ==> r.error.ValidationFailed? && |r.error.loc| > 0 && r.error.loc[0] == ComponentAField
    ensures nested.Unset? ==> r == Ok(ApConfig(CompAVariable(env, iniValue)))
    ensures nested.Decoded? && r.Ok? && NestedAlias(nested.value.fields).None? ==> r.value.compAVariable == iniValue
    ensures nested.Decoded? && r.Ok? && NestedAlias(nested.value.fields).Some? ==>
              Json.Str(r.value.compAVariable) == nested.value.fields[NestedAlias(nested.value.fields).value]
  {
    match nested
    case Unset => Ok(ApConfig(CompAVariable(env, iniValue)))
    case Undecodable => Err(SourceFailed(ComponentAField))
    case Decoded(v) =>
      if !v.Object? then Err(ValidationFailed([ComponentAField]))
      else
        match NestedAlias(v.fields)
        case None => Ok(ApConfig(iniValue))
        case Some(a) =>
          if v.fields[a].Str? then Ok(ApConfig(v.fields[a].s))
          else Err(ValidationFailed([ComponentAField, a]))
  }

  /** `Settings`: the top-level settings object. */
  datatype Settings = Settings(appEnv: string, secretVariable: Option<string>, componentA: ApConfig)

  /** `Settings()` for a given environment and merged table: `app_env` and
      `secret_variable` take their variable when it is set, else their
      import-time default (the stripped profile, the secret read at import);
      `componentA` is the only field that can fail validation. */
  function BuildSettings(env: Env, nested: NestedVariable, t: Table): (r: Result<Settings, SettingsFailure>)
    ensures r.Err? <==> NestedInvalid(nested)
    ensures r.Err? ==> r.error == ComponentA(env, nested, IniCompAVariable(t)).error
    ensures r.Ok? ==> r.value.appEnv == (if ProfileVariable in env then env[ProfileVariable] else ActiveProfile(env))
    ensures r.Ok? ==> r.value.secretVariable == EnvGet(env, SecretVariable)
    ensures r.Ok? ==> r.value.componentA == ComponentA(env, nested, IniCompAVariable(t)).value
  {
    SingleAlias(env, ProfileVariable);
    SingleAlias(env, SecretVariable);
    var secret := AliasValue(env, [SecretVariable]);
    match ComponentA(env, nested, IniCompAVariable(t))
    case Err(e) => Err(e)
    case Ok(component) =>
      Ok(Settings(
        OrElse(AliasValue(env, [ProfileVariable]), ActiveProfile(env)),
        if secret.Some? then secret else EnvGet(env, SecretVariable),
        component))
  }

  /** `get_settings()`: a validation error from `Settings()` becomes a
      configuration failure; any other error propagates; a successful
      construction is returned as is. */
  function GetSettings(constructed: Result<Settings, SettingsFailure>): (r: Result<Settings, StartupError>)
    ensures r.Ok? <==> constructed.Ok?
    ensures r.Ok? ==> r.value == constructed.value
    ensures constructed.Err? && constructed.error.ValidationFailed? ==> r == Err(ConfigInvalid(constructed.error.loc))
    ensures constructed.Err? && constructed.error.SourceFailed? ==> r == Err(SettingsSourceError(constructed.error.field))
  {
    match constructed
    case Ok(s) => Ok(s)
    case Err(ValidationFailed(loc)) => Err(ConfigInvalid(loc))
    case Err(SourceFailed(field)) => Err(SettingsSourceError(field))
  }

  /** The module's start-up sequence followed by the first `get_settings()`:
      read the file, apply the profile, check the secret, build the settings.
      Only a missing file, a missing production secret or the `componentA`
      variable can make it fail; the table itself never does. */
  function ResolveSettings(env: Env, nested: NestedVariable, ini: Option<Table>): (r: Result<Settings, StartupError>)
    requires ini.Some? ==> TableOk(ini.value)
    ensures ini.None? ==> r == Err(ConfigFileNotFound)
    ensures ini.Some? ==>
              (r.Err? <==> (ActiveProfile(env) == ProductionProfile && (SecretVariable !in env || env[SecretVariable] == ""))
                           || NestedInvalid(nested))
    ensures ini.Some? && r.Ok? ==> r.value == BuildSettings(env, nested, Overrides(ini.value, ActiveProfile(env))).value
  {
    if ini.None? then Err(ConfigFileNotFound)
    else Start(env, nested, ActiveProfile(env), ini.value)
  }

  /** The rest of start-up once the profile is known: merge the profile into
      the table, check the secret, build the settings. The secret check
      comes first. */
  function Start(env: Env, nested: NestedVariable, profile: string, t: Table): (r: Result<Settings, StartupError>)
    requires TableOk(t)
    ensures r.Err? <==> SecretGate(profile, EnvGet(env, SecretVariable)).Some? || NestedInvalid(nested)
    ensures SecretGate(profile, EnvGet(env, SecretVariable)).Some? ==> r == Err(SecretMissing)
    ensures r.Ok? ==> r.value == BuildSettings(env, nested, Overrides(t, profile)).value
  {
    match SecretGate(profile, EnvGet(env, SecretVariable))
    case Some(e) => Err(e)
    case None => GetSettings(BuildSettings(env, nested, Overrides(t, profile)))
  }

  /** The module body, then `get_settings()`: `ini` is what `_parser.read`
      found (`None` when the file is missing). */
  method LoadSettings(env: Env, nested: NestedVariable, ini: Option<Table>) returns (r: Result<Settings, StartupError>)
    requires ini.Some? ==> TableOk(ini.value)
    ensures r == ResolveSettings(env, nested, ini)
  {
    var profile := ActiveProfile(env);
    if ini.None? {
      return Err(ConfigFileNotFound);
    }
    var parser := new ConfigParser(ini.value);
    ApplyProfileOverrides(parser, profile);
    var gate := SecretGate(profile, EnvGet(env, SecretVariable));
    if gate.Some? {
      return Err(gate.value);
    }
    r := GetSettings(BuildSettings(env, nested, parser.State()));
    assert r == Start(env, nested, profile, ini.value);
  }

  /** Which error start-up reports: the secret first, then the variable of
      the nested field; a successful start-up holds the secret as read. */
  lemma StartupOutcome(env: Env, nested: NestedVariable, ini: Option<Table>)
    requires ini.Some? ==> TableOk(ini.value)
    ensures ini.Some? && SecretGate(ActiveProfile(env), EnvGet(env, SecretVariable)).Some? ==>
              ResolveSettings(env, nested, ini) == Err(SecretMissing)
    ensures ini.Some? && SecretGate(ActiveProfile(env), EnvGet(env, SecretVariable)).None? && nested.Undecodable? ==>
              ResolveSettings(env, nested, ini) == Err(SettingsSourceError(ComponentAField))
    ensures ini.Some? && SecretGate(ActiveProfile(env), EnvGet(env, SecretVariable)).None? && NestedInvalid(nested) && nested.Decoded? ==>
              ResolveSettings(env, nested, ini).Err? && ResolveSettings(env, nested, ini).error.ConfigInvalid?
    ensures ResolveSettings(env, nested, ini).Ok? ==>
              ResolveSettings(env, nested, ini).value.secretVariable == EnvGet(env, SecretVariable)
  {
    if ini.Some? {
      var p := ActiveProfile(env);
      assert ResolveSettings(env, nested, ini) == Start(env, nested, p, ini.value);
      if SecretGate(p, EnvGet(env, SecretVariable)).None? {
        var b := BuildSettings(env, nested, Overrides(ini.value, p));
        assert Start(env, nested, p, ini.value) == GetSettings(b);
      }
    }
  }

  /** Whether `compA_variable` ends up with its INI value: neither the nested
      variable nor an alias variable is set, or the nested variable is an
      object without an alias key. */
  predicate ReadsIni(env: Env, nested: NestedVariable) {
    || (nested.Unset? && "COMP_A_VARIABLE" !in env && "COMPA_VARIABLE" !in env)
    || (nested.Decoded? && nested.value.Object? && NestedAlias(nested.value.fields).None?)
  }

  /** When the settings read the INI value, they hold it. */
  lemma BuildReadsIni(env: Env, nested: NestedVariable, t: Table)
    requires ReadsIni(env, nested)
    ensures BuildSettings(env, nested, t).Ok?
    ensures BuildSettings(env, nested, t).value.componentA.compAVariable == IniCompAVariable(t)
  {
  }

  /** Otherwise the table does not matter to the settings. */
  lemma BuildIgnoresTable(env: Env, nested: NestedVariable, t1: Table, t2: Table)
    requires !ReadsIni(env, nested)
    ensures BuildSettings(env, nested, t1) == BuildSettings(env, nested, t2)
  {
    var c1 := ComponentA(env, nested, IniCompAVariable(t1));
    var c2 := ComponentA(env, nested, IniCompAVariable(t2));
    assert c1 == c2;
  }

  /** The variable of the nested field hides the alias variables: with an
      object without alias key, such as `{}`, `compA_variable` is the INI
      value even when `COMP_A_VARIABLE` is set, whose value it is otherwise. */
  lemma NestedHidesAliases(env: Env, t: Table)
    requires "COMP_A_VARIABLE" in env
    ensures BuildSettings(env, Unset, t).Ok?
    ensures BuildSettings(env, Unset, t).value.componentA.compAVariable == env["COMP_A_VARIABLE"]
    ensures BuildSettings(env, Decoded(Json.Object(map[])), t).Ok?
    ensures BuildSettings(env, Decoded(Json.Object(map[])), t).value.componentA.compAVariable == IniCompAVariable(t)
  {
    BuildReadsIni(env, Decoded(Json.Object(map[])), t);
  }

  /** A value other than a string under an alias key fails validation, which
      `get_settings()` reports as a configuration failure at that location. */
  lemma NestedNonStringFails(env: Env, ini: Table, v: Json.Value)
    requires TableOk(ini) && !v.Str?
    requires SecretGate(ActiveProfile(env), EnvGet(env, SecretVariable)).None?
    ensures ResolveSettings(env, Decoded(Json.Object(map["COMP_A_VARIABLE" := v])), Some(ini))
            == Err(ConfigInvalid([ComponentAField, "COMP_A_VARIABLE"]))
  {
    var nested := Decoded(Json.Object(map["COMP_A_VARIABLE" := v]));
    var p := ActiveProfile(env);
    assert NestedAlias(nested.value.fields) == Some("COMP_A_VARIABLE");
    assert ResolveSettings(env, nested, Some(ini)) == Start(env, nested, p, ini);
    var b := BuildSettings(env, nested, Overrides(ini, p));
    assert Start(env, nested, p, ini) == GetSettings(b);
  }

  /** Unless the settings read the INI value, neither the INI file nor the
      profile decides `compA_variable`. */
  lemma EnvironmentWins(env: Env, nested: NestedVariable, ini1: Table, ini2: Table)
    requires TableOk(ini1) && TableOk(ini2)
    requires !ReadsIni(env, nested)
    requires ResolveSettings(env, nested, Some(ini1)).Ok? && ResolveSettings(env, nested, Some(ini2)).Ok?
    ensures ResolveSettings(env, nested, Some(ini1)).value == ResolveSettings(env, nested, Some(ini2)).value
  {
    var p := ActiveProfile(env);
    BuildIgnoresTable(env, nested, Overrides(ini1, p), Overrides(ini2, p));
  }
}
