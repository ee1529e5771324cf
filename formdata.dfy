/**
  The form keys of the save views and the reconstruction of offer groups
  from the posted fields (`save_and_distribute_view` and
  `save_and_send_to_single_view`).

  A key is matched first against `group-(\d+)-variant-(\d+)-(\w+)`, then
  against `group-(\d+)-(\w+)`, both with `re.match`: anchored at the start
  of the key, not at its end. Only non-empty values are stored, and a
  later item overwrites an earlier one with the same group, variant and
  field.
*/
module FormData {
  import opened Wrappers
  import opened Text

  /** What a form key addresses. Indices are `int(...)` of the digit runs. */
  datatype FieldKey =
    | VariantField(group: nat, variant: nat, field: string)
    | GroupField(group: nat, field: string)
    | Unmatched

  /** The longest prefix of `s` whose characters all satisfy `p` (a greedy `+` or `*` run). */
  function Run(s: string, p: char -> bool): (r: string)
    ensures |r| <= |s| && r == s[..|r|]
    ensures forall i :: 0 <= i < |r| ==> p(r[i])
    ensures |r| == |s| || !p(s[|r|])
  {
    if s != [] && p(s[0]) then [s[0]] + Run(s[1..], p) else []
  }

  const GROUP_PREFIX := "group-"
  const VARIANT_INFIX := "-variant-"

  /** The `-variant-(\d+)-(\w+)` part following the group digits, if it matches. */
  function VariantTail(after: string): Option<(nat, string)> {
    if !StartsWith(after, VARIANT_INFIX) then None
    else
      var rest := after[|VARIANT_INFIX|..];
      var v := Run(rest, IsDigit);
      if v == [] || |rest| == |v| || rest[|v|] != '-' then None
      else
        var f := Run(rest[|v| + 1..], IsWordChar);
        if f == [] then None else Some((DigitsValue(v), f))
  }

  /** The `-(\w+)` part following the group digits, if it matches. */
  function GroupTail(group: nat, after: string): FieldKey {
    if after == [] || after[0] != '-' then Unmatched
    else
      var f := Run(after[1..], IsWordChar);
      if f == [] then Unmatched else GroupField(group, f)
  }

  /** The two patterns of the save views, the variant pattern taking precedence. */
  function ParseKey(key: string): FieldKey {
    if !StartsWith(key, GROUP_PREFIX) then Unmatched
    else
      var rest := key[|GROUP_PREFIX|..];
      var g := Run(rest, IsDigit);
      if g == [] then Unmatched
      else
        var after := rest[|g|..];
        match VariantTail(after)
        case Some(vf) => VariantField(DigitsValue(g), vf.0, vf.1)
        case None => GroupTail(DigitsValue(g), after)
  }

  /** The key the offer form gives a variant field. */
  function VariantKey(group: nat, variant: nat, field: string): string {
    GROUP_PREFIX + NatToString(group) + VARIANT_INFIX + NatToString(variant) + "-" + field
  }

  /** The key the offer form gives a group field. */
  function GroupKey(group: nat, field: string): string {
    GROUP_PREFIX + NatToString(group) + "-" + field
  }

  predicate AllWordChars(s: string) {
    forall i :: 0 <= i < |s| ==> IsWordChar(s[i])
  }

  lemma {:induction false} RunOf(d: string, rest: string, p: char -> bool)
    requires forall i :: 0 <= i < |d| ==> p(d[i])
    requires rest == [] || !p(rest[0])
    ensures Run(d + rest, p) == d
  {
    if d != [] {
      assert (d + rest)[1..] == d[1..] + rest;
      RunOf(d[1..], rest, p);
    }
  }

  lemma VariantTailOf(variant: nat, field: string)
    requires field != [] && AllWordChars(field)
    ensures VariantTail(VARIANT_INFIX + (NatToString(variant) + ("-" + field))) == Some((variant, field))
  {
    var vs := NatToString(variant);
    NatToStringDigits(variant);
    var after := VARIANT_INFIX + (vs + ("-" + field));
    assert StartsWith(after, VARIANT_INFIX) by {
      assert after[..|VARIANT_INFIX|] == VARIANT_INFIX;
    }
    var rest := after[|VARIANT_INFIX|..];
    assert rest == vs + ("-" + field);
    RunOf(vs, "-" + field, IsDigit);
    assert rest[|vs|] == '-';
    assert rest[|vs| + 1..] == field + [];
    RunOf(field, [], IsWordChar);
  }

  /** The group digits of a key built by the form, and what follows them. */
  lemma GroupDigits(group: nat, after: string)
    requires after == [] || !IsDigit(after[0])
    ensures var key := GROUP_PREFIX + (NatToString(group) + after);
      && StartsWith(key, GROUP_PREFIX)
      && Run(key[|GROUP_PREFIX|..], IsDigit) == NatToString(group)
      && key[|GROUP_PREFIX|..][|NatToString(group)|..] == after
      && DigitsValue(NatToString(group)) == group
  {
    NatToStringDigits(group);
    var key := GROUP_PREFIX + (NatToString(group) + after);
    assert key[|GROUP_PREFIX|..] == NatToString(group) + after;
    RunOf(NatToString(group), after, IsDigit);
  }

  /** Reading a variant key back gives its group, variant and field. */
  lemma ParseVariantKey(group: nat, variant: nat, field: string)
    requires field != [] && AllWordChars(field)
    ensures ParseKey(VariantKey(group, variant, field)) == VariantField(group, variant, field)
  {
    var after := VARIANT_INFIX + (NatToString(variant) + ("-" + field));
    assert VariantKey(group, variant, field) == GROUP_PREFIX + (NatToString(group) + after);
    GroupDigits(group, after);
    VariantTailOf(variant, field);
  }

  /** Reading a group key back gives its group and field. */
  lemma ParseGroupKey(group: nat, field: string)
    requires field != [] && AllWordChars(field)
    ensures ParseKey(GroupKey(group, field)) == GroupField(group, field)
  {
    var after := "-" + field;
    assert GroupKey(group, field) == GROUP_PREFIX + (NatToString(group) + after);
    GroupDigits(group, after);
    assert !StartsWith(after, VARIANT_INFIX) by {
      if |after| >= |VARIANT_INFIX| {
        assert after[8] == field[7] && IsWordChar(field[7]);
        assert VARIANT_INFIX[8] == '-';
      }
    }
    assert after[1..] == field + [];
    RunOf(field, [], IsWordChar);
  }

  /** The CSRF token that the single-subscriber view skips addresses no field either. */
  lemma CsrfTokenIsUnmatched()
    ensures ParseKey("csrfmiddlewaretoken") == Unmatched
  {
    assert "csrfmiddlewaretoken"[..6] != GROUP_PREFIX by {
      assert "csrfmiddlewaretoken"[0] == 'c';
    }
  }

  // -----------------------------------------------------------------------
  // Reconstruction

  /** One group of the reconstructed form: its own fields and its variants' fields. */
  datatype GroupData = GroupData(fields: map<string, string>, variants: map<nat, map<string, string>>)

  type Reconstruction = map<nat, GroupData>

  function GroupOf(data: Reconstruction, group: nat): GroupData {
    if group in data then data[group] else GroupData(map[], map[])
  }

  /** The effect of one posted item on the reconstruction. */
  function Store(data: Reconstruction, key: string, value: string): Reconstruction {
    if value == "" then data
    else
      match ParseKey(key)
      case VariantField(g, v, f) =>
        var gd := GroupOf(data, g);
        var vd := if v in gd.variants then gd.variants[v] else map[];
        data[g := gd.(variants := gd.variants[v := vd[f := value]])]
      case GroupField(g, f) =>
        var gd := GroupOf(data, g);
        data[g := gd.(fields := gd.fields[f := value])]
      case Unmatched => data
  }

  /** The reconstruction of the posted items, taken in order. */
  function Reconstructed(items: seq<(string, string)>): Reconstruction {
    if items == [] then map[]
    else
      var last := items[|items| - 1];
      Store(Reconstructed(items[..|items| - 1]), last.0, last.1)
  }

  /** The stored value of a field, if any. */
  function Lookup(data: Reconstruction, k: FieldKey): Option<string> {
    match k
    case VariantField(g, v, f) =>
      if g in data && v in data[g].variants && f in data[g].variants[v] then Some(data[g].variants[v][f]) else None
    case GroupField(g, f) =>
      if g in data && f in data[g].fields then Some(data[g].fields[f]) else None
    case Unmatched => None
  }

  /** The value of the last posted item that addresses `k` with a non-empty value. */
  function LastWrite(items: seq<(string, string)>, k: FieldKey): Option<string> {
    if items == [] then None
    else
      var last := items[|items| - 1];
      if k != Unmatched && last.1 != "" && ParseKey(last.0) == k then Some(last.1)
      else LastWrite(items[..|items| - 1], k)
  }

  /** The group an addressed field belongs to. */
  function GroupIndex(k: FieldKey): Option<nat> {
    match k
    case VariantField(g, _, _) => Some(g)
    case GroupField(g, _) => Some(g)
    case Unmatched => None
  }

  lemma StoreLookup(data: Reconstruction, key: string, value: string, k: FieldKey)
    ensures Lookup(Store(data, key, value), k) ==
      if k != Unmatched && value != "" && ParseKey(key) == k then Some(value) else Lookup(data, k)
  {
    if value != "" {
      match ParseKey(key)
      case VariantField(g, v, f) => StoreVariantLookup(data, g, v, f, value, k);
      case GroupField(g, f) => StoreGroupLookup(data, g, f, value, k);
      case Unmatched =>
    }
  }

  lemma StoreVariantLookup(data: Reconstruction, g: nat, v: nat, f: string, value: string, k: FieldKey)
    ensures var gd := GroupOf(data, g);
      var vd := if v in gd.variants then gd.variants[v] else map[];
      Lookup(data[g := gd.(variants := gd.variants[v := vd[f := value]])], k) ==
        if k == VariantField(g, v, f) then Some(value) else Lookup(data, k)
  {
  }

  lemma StoreGroupLookup(data: Reconstruction, g: nat, f: string, value: string, k: FieldKey)
    ensures var gd := GroupOf(data, g);
      Lookup(data[g := gd.(fields := gd.fields[f := value])], k) ==
        if k == GroupField(g, f) then Some(value) else Lookup(data, k)
  {
  }

  /**
    Every field of the reconstruction holds the last non-empty value posted
    for it, and no field is there that no item wrote.
  */
  lemma {:induction false} ReconstructedIsLastWrite(items: seq<(string, string)>, k: FieldKey)
    ensures Lookup(Reconstructed(items), k) == LastWrite(items, k)
  {
    if items != [] {
      var last := items[|items| - 1];
      ReconstructedIsLastWrite(items[..|items| - 1], k);
      StoreLookup(Reconstructed(items[..|items| - 1]), last.0, last.1, k);
    }
  }

  /** A group exists in the reconstruction exactly when some item wrote a non-empty value into it. */
  lemma {:induction false} ReconstructedGroups(items: seq<(string, string)>, g: nat)
    ensures g in Reconstructed(items) <==>
      exists i :: 0 <= i < |items| && items[i].1 != "" && GroupIndex(ParseKey(items[i].0)) == Some(g)
  {
    if items != [] {
      var init := items[..|items| - 1];
      ReconstructedGroups(init, g);
      assert forall i :: 0 <= i < |init| ==> init[i] == items[i];
    }
  }

  /** Nothing posted, or only empty values and unmatched keys, leaves nothing to save. */
  lemma EmptyReconstruction(items: seq<(string, string)>)
    ensures Reconstructed(items) == map[] <==>
      forall i :: 0 <= i < |items| ==> items[i].1 == "" || ParseKey(items[i].0) == Unmatched
  {
    if Reconstructed(items) == map[] {
      forall i | 0 <= i < |items| && items[i].1 != "" && ParseKey(items[i].0) != Unmatched
        ensures false
      {
        var g := GroupIndex(ParseKey(items[i].0)).value;
        ReconstructedGroups(items, g);
      }
    } else {
      var g :| g in Reconstructed(items);
      ReconstructedGroups(items, g);
    }
  }

  /** A key the save-and-distribute view takes as a device name to validate. */
  predicate IsGroupingNameKey(key: string) {
    StartsWith(key, GROUP_PREFIX) && EndsWith(key, "-grouping_name")
  }

  /** The stripped device names posted under grouping-name keys with non-empty values. */
  function DeviceNames(items: seq<(string, string)>): set<string> {
    if items == [] then {}
    else
      var last := items[|items| - 1];
      DeviceNames(items[..|items| - 1]) + (if IsGroupingNameKey(last.0) && last.1 != "" then {Strip(last.1)} else {})
  }

  lemma {:induction false} DeviceNamesMembership(items: seq<(string, string)>, name: string)
    ensures name in DeviceNames(items) <==>
      exists i :: 0 <= i < |items| && IsGroupingNameKey(items[i].0) && items[i].1 != "" && Strip(items[i].1) == name
  {
    if items != [] {
      var init := items[..|items| - 1];
      DeviceNamesMembership(init, name);
      assert forall i :: 0 <= i < |init| ==> init[i] == items[i];
    }
  }

  /**
    The reconstruction loop of the save views: the groups, their fields and
    their variants' fields, and the device names to validate.
  */
  method ReconstructForm(items: seq<(string, string)>) returns (data: Reconstruction, deviceNames: set<string>)
    ensures data == Reconstructed(items)
    ensures deviceNames == DeviceNames(items)
  {
    data := map[];
    deviceNames := {};
    for i := 0 to |items|
      invariant data == Reconstructed(items[..i])
      invariant deviceNames == DeviceNames(items[..i])
    {
      var (key, value) := items[i];
      assert items[..i + 1][..i] == items[..i];
      if IsGroupingNameKey(key) && value != "" {
        deviceNames := deviceNames + {Strip(value)};
      }
      match ParseKey(key)
      case VariantField(g, v, f) =>
        if value != "" {
          var gd := if g in data then data[g] else GroupData(map[], map[]);
          var vd := if v in gd.variants then gd.variants[v] else map[];
          data := data[g := gd.(variants := gd.variants[v := vd[f := value]])];
        }
      case GroupField(g, f) =>
        if value != "" {
          var gd := if g in data then data[g] else GroupData(map[], map[]);
          data := data[g := gd.(fields := gd.fields[f := value])];
        }
      case Unmatched =>
    }
    assert items[..|items|] == items;
  }
}
