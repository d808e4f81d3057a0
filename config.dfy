/** The schema snapshot that cu_api reads from its config globals and from
    `core` (CF_ID_LOOKUP, CUSTOM_FIELDS_DICT, CUSTOM_FIELDS, get_cf_options,
    cf_option_name), passed in as one immutable value. */
module Config {
  import opened Python

  /** An entry of CUSTOM_FIELDS: its 'data_type' (absent allowed) and whether
      the definition has an 'options' key. */
  datatype FieldDef = FieldDef(dataType: Option<string>, hasOptions: bool)

  datatype Snapshot = Snapshot(
    cfIdLookup: map<string, int>,          // CF_ID_LOOKUP: field name -> field id
    customFieldsDict: map<int, string>,    // CUSTOM_FIELDS_DICT: field id -> field name
    customFields: map<int, FieldDef>,      // CUSTOM_FIELDS: field id -> definition
    options: int -> seq<(int, string)>,    // get_cf_options(id): option id -> option name, in dict order
    optionName: (int, PyVal) -> PyVal)     // core.cf_option_name(id, value)

  /** One `{"custom_field_definition_id": id, "value": v}` object, as Copper
      returns it on a record and as the bulk-update body sends it. */
  datatype CustomFieldValue = CustomFieldValue(fieldId: int, value: PyVal)
}
