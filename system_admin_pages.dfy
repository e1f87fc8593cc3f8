/** The device-settings form of the system administrator's pages: request values are split
    into consent-section entries and other settings, the flat consent-section keys
    "<anything>.<label>.<content type>" are nested by label, and only a system
    administrator may save. */
module SystemAdminPages {
  import opened Wrappers
  import opened PyStrings
  import CommonModels

  /** Consent sections by label, then by content type. */
  type Sections = map<string, map<string, string>>

  /** The (label, content type) a flat key addresses; a key that does not split into exactly
      three '.'-parts fails to unpack (ValueError). */
  function Slot(key: string): Option<(string, string)>
  {
    var parts := Split(key, '.');
    if |parts| == 3 then Some((parts[1], parts[2])) else None
  }

  /** The nested sections after the flat entries, in order. */
  function Unflattened(items: seq<(string, string)>): (r: Result<Sections, string>)
    ensures r.Err? ==> r == Err("ValueError")
  {
    if |items| == 0 then Ok(map[])
    else
      var before := Unflattened(items[..|items| - 1]);
      var item := items[|items| - 1];
      var slot := Slot(item.0);
      if before.Err? then before
      else if slot.None? then Err("ValueError")
      else
        var inner := if slot.value.0 in before.value then before.value[slot.value.0] else map[];
        Ok(before.value[slot.value.0 := inner[slot.value.1 := item.1]])
  }

  /** unflatten_consent_sections fails exactly when some key is not three '.'-parts. */
  lemma {:induction false} UnflattenedFails(items: seq<(string, string)>)
    ensures Unflattened(items).Err? <==> exists i :: 0 <= i < |items| && Slot(items[i].0).None?
    decreases |items|
  {
    if |items| > 0 {
      var init := items[..|items| - 1];
      UnflattenedFails(init);
      if exists i :: 0 <= i < |init| && Slot(init[i].0).None? {
        var i :| 0 <= i < |init| && Slot(init[i].0).None?;
        assert items[i] == init[i];
      }
      if exists i :: 0 <= i < |items| && Slot(items[i].0).None? {
        var i :| 0 <= i < |items| && Slot(items[i].0).None?;
        if i < |init| {
          assert init[i] == items[i];
        }
      }
    }
  }

  /** The labels are exactly the middle parts of the keys. */
  lemma {:induction false} UnflattenedLabels(items: seq<(string, string)>, sectionLabel: string)
    requires Unflattened(items).Ok?
    ensures sectionLabel in Unflattened(items).value
      <==> exists i :: 0 <= i < |items| && Slot(items[i].0).Some? && Slot(items[i].0).value.0 == sectionLabel
    decreases |items|
  {
    if |items| > 0 {
      var init := items[..|items| - 1];
      var last := items[|items| - 1];
      assert Unflattened(init).Ok?;
      UnflattenedLabels(init, sectionLabel);
      assert sectionLabel in Unflattened(items).value
        <==> sectionLabel in Unflattened(init).value || Slot(last.0).value.0 == sectionLabel;
      assert forall i :: 0 <= i < |init| ==> init[i] == items[i];
    }
  }

  /** A label's content types are exactly the last parts of the keys with that label. */
  lemma {:induction false} UnflattenedContentTypes(items: seq<(string, string)>, sectionLabel: string, contentType: string)
    requires Unflattened(items).Ok?
    ensures (sectionLabel in Unflattened(items).value && contentType in Unflattened(items).value[sectionLabel])
      <==> exists i :: 0 <= i < |items| && Slot(items[i].0) == Some((sectionLabel, contentType))
    decreases |items|
  {
    if |items| > 0 {
      var init := items[..|items| - 1];
      UnflattenedContentTypes(init, sectionLabel, contentType);
      if exists i :: 0 <= i < |init| && Slot(init[i].0) == Some((sectionLabel, contentType)) {
        var i :| 0 <= i < |init| && Slot(init[i].0) == Some((sectionLabel, contentType));
        assert items[i] == init[i];
      }
      if exists i :: 0 <= i < |items| && Slot(items[i].0) == Some((sectionLabel, contentType)) {
        var i :| 0 <= i < |items| && Slot(items[i].0) == Some((sectionLabel, contentType));
        if i < |init| {
          assert init[i] == items[i];
        }
      }
    }
  }

  /** Each slot holds the content of the last entry addressing it. */
  lemma {:induction false} UnflattenedLastWins(items: seq<(string, string)>, i: nat)
    requires Unflattened(items).Ok? && i < |items| && Slot(items[i].0).Some?
    requires forall j :: i < j < |items| ==> Slot(items[j].0) != Slot(items[i].0)
    ensures var slot := Slot(items[i].0).value;
      slot.0 in Unflattened(items).value && slot.1 in Unflattened(items).value[slot.0]
      && Unflattened(items).value[slot.0][slot.1] == items[i].1
    decreases |items|
  {
    var init := items[..|items| - 1];
    if i < |init| {
      assert init[i] == items[i];
      forall j | i < j < |init|
        ensures Slot(init[j].0) != Slot(init[i].0)
      {
        assert init[j] == items[j];
      }
      UnflattenedLastWins(init, i);
    }
  }

  /** A key "<first>.<label>.<content type>" of dot-free parts addresses that label and
      content type whatever its first part, so keys differing only there share a slot. */
  lemma SlotIgnoresFirstPart(first: string, sectionLabel: string, contentType: string)
    requires '.' !in first && '.' !in sectionLabel && '.' !in contentType
    ensures Slot(first + "." + sectionLabel + "." + contentType) == Some((sectionLabel, contentType))
  {
    var xs := [first, sectionLabel, contentType];
    assert Join(xs, '.') == first + "." + sectionLabel + "." + contentType by {
      assert xs[1..] == [sectionLabel, contentType];
      assert xs[1..][1..] == [contentType];
      assert Join([contentType], '.') == contentType;
      assert Join([sectionLabel, contentType], '.') == sectionLabel + "." + contentType;
    }
    SplitJoin(xs, '.');
  }

  /** unflatten_consent_sections: each entry is split into its three parts and stored under
      its label and content type; a key of any other shape raises ValueError. */
  method UnflattenConsentSections(items: seq<(string, string)>) returns (r: Result<Sections, string>)
    ensures r == Unflattened(items)
  {
    var refactored: Sections := map[];
    var i := 0;
    while i < |items|
      invariant 0 <= i <= |items|
      invariant Unflattened(items[..i]) == Ok(refactored)
    {
      assert items[..i + 1][..i] == items[..i];
      var (key, content) := items[i];
      var parts := Split(key, '.');
      if |parts| != 3 {
        assert Slot(items[i].0).None?;
        UnflattenedFails(items);
        return Err("ValueError");
      }
      var sectionLabel, contentType := parts[1], parts[2];
      var inner := if sectionLabel in refactored then refactored[sectionLabel] else map[];
      refactored := refactored[sectionLabel := inner[contentType := content]];
      i := i + 1;
    }
    assert items[..|items|] == items;
    r := Ok(refactored);
  }

  /** Whether some pair of `values` has key `key`. */
  predicate HasKey(values: seq<(string, string)>, key: string)
  {
    exists i :: 0 <= i < |values| && values[i].0 == key
  }

  /** Whether `values[i]` is the first pair with its key. */
  predicate FirstOfKey(values: seq<(string, string)>, i: int)
    requires 0 <= i < |values|
  {
    !HasKey(values[..i], values[i].0)
  }

  /** The request values as a dictionary iterates them: one pair per key, holding the first
      value the request delivered for it. */
  function FirstValues(values: seq<(string, string)>): (r: seq<(string, string)>)
    ensures CommonModels.DistinctNames(r)
    ensures forall i :: 0 <= i < |values| && FirstOfKey(values, i) ==> values[i] in r
    ensures forall p :: p in r ==> exists i :: 0 <= i < |values| && values[i] == p && FirstOfKey(values, i)
  {
    if |values| == 0 then []
    else
      var init := values[..|values| - 1];
      var last := values[|values| - 1];
      assert forall i :: 0 <= i < |init| ==> init[..i] == values[..i];
      var before := FirstValues(init);
      assert forall i :: 0 <= i < |init| ==> (FirstOfKey(values, i) <==> FirstOfKey(init, i));
      assert values[..|values| - 1] == init;
      if HasKey(init, last.0) then before
      else
        assert forall k :: 0 <= k < |before| ==> before[k].0 != last.0 by {
          forall k | 0 <= k < |before|
            ensures before[k].0 != last.0
          {
            assert before[k] in before;
          }
        }
        before + [last]
  }

  /** Whether a request value belongs to the consent sections. */
  predicate IsConsentKey(key: string)
  {
    StartsWith(key, "consent_section")
  }

  /** The request values whose key starts with "consent_section", in order. */
  function ConsentItems(values: seq<(string, string)>): (r: seq<(string, string)>)
    ensures forall p :: p in r <==> p in values && IsConsentKey(p.0)
  {
    if |values| == 0 then []
    else
      var init := values[..|values| - 1];
      var last := values[|values| - 1];
      assert values == init + [last];
      ConsentItems(init) + (if IsConsentKey(last.0) then [last] else [])
  }

  /** The other request values, in order. */
  function ParamItems(values: seq<(string, string)>): (r: seq<(string, string)>)
    ensures forall p :: p in r <==> p in values && !IsConsentKey(p.0)
  {
    if |values| == 0 then []
    else
      var init := values[..|values| - 1];
      var last := values[|values| - 1];
      assert values == init + [last];
      ParamItems(init) + (if !IsConsentKey(last.0) then [last] else [])
  }

  /** Every request value goes to exactly one of the two parts, and none is lost. */
  lemma {:induction false} PartitionIsExact(values: seq<(string, string)>)
    ensures |ConsentItems(values)| + |ParamItems(values)| == |values|
    ensures forall p :: p in values ==> (p in ConsentItems(values) <==> p !in ParamItems(values))
    decreases |values|
  {
    if |values| > 0 {
      PartitionIsExact(values[..|values| - 1]);
    }
  }

  /** device_settings on POST: a study administrator who is not a system administrator gets
      403 before anything changes; otherwise the request values are taken one per key, with
      the first value given for it, the consent entries are nested (a malformed key
      raises, 500, before the update) and the settings are updated with the converted
      other values and the serialised sections, followed by a redirect (302). */
  method DeviceSettingsPost(isSystemAdmin: bool, values: seq<(string, string)>, settings: CommonModels.Record,
                            convert: seq<(string, string)> -> seq<(string, string)>, dumps: Sections -> string)
    returns (status: int)
    modifies settings
    ensures !isSystemAdmin ==> status == 403 && settings.attributes == old(settings.attributes)
    ensures isSystemAdmin && Unflattened(ConsentItems(FirstValues(values))).Err? ==>
      status == 500 && settings.attributes == old(settings.attributes)
    ensures isSystemAdmin && Unflattened(ConsentItems(FirstValues(values))).Ok? ==> (status == 302
      && settings.attributes == CommonModels.Assigned(old(settings.attributes),
           convert(ParamItems(FirstValues(values)))
           + [("consent_sections", dumps(Unflattened(ConsentItems(FirstValues(values))).value))]))
    ensures settings.deleted == old(settings.deleted)
  {
    if !isSystemAdmin {
      return 403;
    }
    var items := FirstValues(values);
    var consentSections := ConsentItems(items);
    var params := convert(ParamItems(items));
    var sections := UnflattenConsentSections(consentSections);
    if sections.Err? {
      return 500;
    }
    params := params + [("consent_sections", dumps(sections.value))];
    settings.Update(params);
    status := 302;
  }
}
