/** Mapping a template's placeholders to contact fields: the fields a contact list offers, the
    initial mapping derived from the placeholders, editing one mapping, and the unmapped check. */
module ParameterMapping {
  import opened Wrappers
  import opened Strings
  import opened Seqs

  /** One entry of a contact's `custom_fields` record, in key insertion order. */
  datatype CustomField = CustomField(key: string, value: string)

  function Keys(fields: seq<CustomField>): (ks: seq<string>)
    ensures |ks| == |fields|
    ensures forall i :: 0 <= i < |fields| ==> ks[i] == fields[i].key
  {
    seq(|fields|, i requires 0 <= i < |fields| => fields[i].key)
  }

  /** `fields[key]`: the value stored under `key`, if any. */
  function Lookup(fields: seq<CustomField>, key: string): (v: Option<string>)
    ensures v.Some? <==> key in Keys(fields)
    ensures v.Some? ==> CustomField(key, v.value) in fields
    decreases |fields|
  {
    if fields == [] then None
    else if fields[0].key == key then Some(fields[0].value)
    else
      assert Keys(fields) == [fields[0].key] + Keys(fields[1..]);
      Lookup(fields[1..], key)
  }

  /** A contact as the mapping step sees it: only its custom fields matter here. */
  datatype MappingContact = MappingContact(name: Option<string>, phone_number: string,
                                           custom_fields: Option<seq<CustomField>>)

  /** A placeholder and the contact field that fills it. */
  datatype ParameterMapping = ParameterMapping(
    placeholder: string,
    parameter_name: string,
    mapped_field: string,
    mappingType: string)

  const BuiltInFields: seq<string> := ["name", "phone_number"]

  /** The custom-field keys of one contact; none when it has no custom fields. */
  function CustomKeys(c: MappingContact): seq<string> {
    if c.custom_fields.Some? then Keys(c.custom_fields.value) else []
  }

  /** The custom-field keys of the contacts, contact by contact, repetitions included. */
  function ContactKeys(contacts: seq<MappingContact>): seq<string> {
    FlatMap(contacts, CustomKeys)
  }

  /** The `Set` of available fields: `'name'`, `'phone_number'`, then every custom-field key,
      each added once. */
  method AvailableFields(contacts: seq<MappingContact>) returns (fields: seq<string>)
    ensures fields == Dedup(BuiltInFields + ContactKeys(contacts))
  {
    fields := ["name"];
    fields := PushNew(fields, "phone_number");
    ghost var builtIn := fields;
    assert builtIn == PushAll([], BuiltInFields);
    for i := 0 to |contacts|
      invariant fields == PushAll(builtIn, FlatMap(contacts[..i], CustomKeys))
    {
      FlatMapStep(contacts, i, CustomKeys);
      PushAllAppend(builtIn, FlatMap(contacts[..i], CustomKeys), CustomKeys(contacts[i]));
      var contact := contacts[i];
      if contact.custom_fields.Some? {
        fields := AddKeys(fields, Keys(contact.custom_fields.value));
      }
    }
    assert contacts[..|contacts|] == contacts;
    PushAllAppend([], BuiltInFields, ContactKeys(contacts));
    PushAllDedup([], BuiltInFields + ContactKeys(contacts));
    assert [] + (BuiltInFields + ContactKeys(contacts)) == BuiltInFields + ContactKeys(contacts);
  }

  /** `Object.keys(contact.custom_fields).forEach(field => fields.add(field))`. */
  method AddKeys(fields: seq<string>, keys: seq<string>) returns (result: seq<string>)
    ensures result == PushAll(fields, keys)
  {
    result := fields;
    for j := 0 to |keys|
      invariant PushAll(result, keys[j..]) == PushAll(fields, keys)
    {
      assert keys[j..][1..] == keys[j + 1..];
      if keys[j] !in result {
        result := result + [keys[j]];
      }
    }
  }

  /** The available fields start with `'name'` and `'phone_number'`, hold every custom key
      exactly once, and nothing else. */
  lemma AvailableFieldsShape(contacts: seq<MappingContact>)
    ensures var fields := Dedup(BuiltInFields + ContactKeys(contacts));
      |fields| >= 2 && fields[0] == "name" && fields[1] == "phone_number" &&
      NoDuplicates(fields) &&
      forall f :: f in fields <==> f in BuiltInFields || f in ContactKeys(contacts)
  {
    var keys := ContactKeys(contacts);
    DedupOfDistinct(BuiltInFields);
    PushAllDedup(BuiltInFields, keys);
    PushAllPrefix(BuiltInFields, keys);
  }

  predicate IsBrace(c: char) {
    c == '{' || c == '}'
  }

  predicate NotBrace(c: char) {
    !IsBrace(c)
  }

  /** `placeholder.replace(/[{}]/g, '')`: the other characters, in order and with their
      repetitions; the result is shorter by the number of braces. */
  function RemoveBraces(s: string): (r: string)
    ensures '{' !in r && '}' !in r
    ensures forall c :: c in r <==> c in s && c != '{' && c != '}'
    ensures IsSubsequence(r, s)
    ensures |r| + |Filter(s, IsBrace)| == |s|
  {
    FilterIsSubsequence(s, NotBrace);
    FilterComplementLength(s, NotBrace, IsBrace);
    Filter(s, NotBrace)
  }

  /** The parameter name of a placeholder: its text without braces, and a purely numeric
      (positional) name gets the prefix `param_`. A parameter name never contains a brace. */
  function ParameterName(placeholder: string): (name: string)
    ensures '{' !in name && '}' !in name
  {
    var bare := RemoveBraces(placeholder);
    if bare != "" && AllDigits(bare) then
      assert forall c :: c in "param_" ==> c != '{' && c != '}';
      "param_" + bare
    else bare
  }

  /** A positional placeholder such as `{{1}}` becomes `param_1`, and a named one keeps its
      name. */
  lemma ParameterNameShape(placeholder: string)
    ensures var bare := RemoveBraces(placeholder);
      (bare != "" && AllDigits(bare) ==> ParameterName(placeholder) == "param_" + bare) &&
      (!(bare != "" && AllDigits(bare)) ==> ParameterName(placeholder) == bare)
  {
  }

  lemma {:induction false} RemoveBracesKeepsPlain(s: string)
    requires '{' !in s && '}' !in s
    ensures RemoveBraces(s) == s
  {
    FilterAll(s, NotBrace);
  }

  /** The mapping proposed for a fresh placeholder list: one per placeholder, in order, unmapped. */
  function InitialMappings(placeholders: seq<string>): (ms: seq<ParameterMapping>)
    ensures |ms| == |placeholders|
    ensures forall i :: 0 <= i < |ms| ==>
      ms[i] == ParameterMapping(placeholders[i], ParameterName(placeholders[i]), "", "text")
  {
    seq(|placeholders|, i requires 0 <= i < |placeholders| =>
      ParameterMapping(placeholders[i], ParameterName(placeholders[i]), "", "text"))
  }

  /** After the template is loaded: the initial mappings replace an empty list, and an existing
      list is kept. */
  function MappingsAfterLoad(current: seq<ParameterMapping>, placeholders: seq<string>): (ms: seq<ParameterMapping>)
    ensures |current| > 0 ==> ms == current
    ensures |current| == 0 ==> ms == InitialMappings(placeholders)
  {
    if |current| == 0 then InitialMappings(placeholders) else current
  }

  /** `parameterMappings.some(mapping => !mapping.mapped_field)`. */
  function HasUnmappedParameters(ms: seq<ParameterMapping>): (b: bool)
    ensures b <==> exists i :: 0 <= i < |ms| && ms[i].mapped_field == ""
    decreases |ms|
  {
    if ms == [] then false
    else ms[0].mapped_field == "" || HasUnmappedParameters(ms[1..])
  }

  /** Freshly proposed mappings are unmapped whenever there is a placeholder. */
  lemma InitialMappingsUnmapped(placeholders: seq<string>)
    ensures HasUnmappedParameters(InitialMappings(placeholders)) <==> |placeholders| > 0
  {
    if |placeholders| > 0 {
      assert InitialMappings(placeholders)[0].mapped_field == "";
    }
  }

  /** `updateMapping`: a copy of the list with the entry at `index` changed in `field`; only
      `'mapped_field'` and `'parameter_name'` can be edited. */
  method UpdateMapping(mappings: seq<ParameterMapping>, index: nat, field: string, value: string)
    returns (updated: seq<ParameterMapping>)
    requires index < |mappings|
    ensures |updated| == |mappings|
    ensures forall j :: 0 <= j < |mappings| && j != index ==> updated[j] == mappings[j]
    ensures field == "mapped_field" ==> updated[index] == mappings[index].(mapped_field := value)
    ensures field == "parameter_name" ==> updated[index] == mappings[index].(parameter_name := value)
    ensures field != "mapped_field" && field != "parameter_name" ==> updated == mappings
  {
    updated := mappings;
    if field == "mapped_field" {
      updated := updated[index := updated[index].(mapped_field := value)];
    } else if field == "parameter_name" {
      updated := updated[index := updated[index].(parameter_name := value)];
    }
  }

  /** Mapping the last unmapped entry to a field clears the warning. */
  lemma MappingLastUnmapped(ms: seq<ParameterMapping>, index: nat, value: string)
    requires index < |ms| && value != ""
    requires forall j :: 0 <= j < |ms| && j != index ==> ms[j].mapped_field != ""
    ensures !HasUnmappedParameters(ms[index := ms[index].(mapped_field := value)])
  {
  }

  /** `getFieldDisplayName`. */
  function FieldDisplayName(field: string): (display: string)
    ensures field == "name" ==> display == "Name"
    ensures field == "phone_number" ==> display == "Phone Number"
    ensures field !in BuiltInFields ==> display == field
  {
    if field == "name" then "Name"
    else if field == "phone_number" then "Phone Number"
    else field
  }

  /** Two available fields share a display name only when a contact has a custom field called
      `Name` or `Phone Number`, which then reads like the built-in field. */
  lemma DisplayNameCollisions(contacts: seq<MappingContact>, i: nat, j: nat)
    requires i < j < |Dedup(BuiltInFields + ContactKeys(contacts))|
    ensures var fields := Dedup(BuiltInFields + ContactKeys(contacts));
      FieldDisplayName(fields[i]) == FieldDisplayName(fields[j]) <==>
        (i == 0 && fields[j] == "Name") || (i == 1 && fields[j] == "Phone Number")
  {
    AvailableFieldsShape(contacts);
  }
}
