/**
 * The global field resource: mapping between Terraform state
 * (GlobalFieldData) and the SDK's global field records, and the merge that
 * keeps the planned schema text in the state.
 */
module ResourceGlobalField {
  import opened Framework
  import opened Management

  /**
   * The Terraform-side state and plan of a global field. A class, because
   * MergeGlobalField updates a record in place through a pointer.
   */
  class GlobalFieldData {
    var uid: TfString
    var title: TfString
    var description: TfString
    var maintainRevisions: TfBool
    var schema: TfString

    constructor (uid: TfString, title: TfString, description: TfString, maintainRevisions: TfBool, schema: TfString)
      ensures this.uid == uid && this.title == title && this.description == description
      ensures this.maintainRevisions == maintainRevisions && this.schema == schema
    {
      this.uid := uid;
      this.title := title;
      this.description := description;
      this.maintainRevisions := maintainRevisions;
      this.schema := schema;
    }
  }

  /**
   * `NewGlobalFieldData`: a new state record from a global field the API
   * returned; the schema is the JSON text of the remote schema.
   */
  method NewGlobalFieldData(field: GlobalField) returns (state: GlobalFieldData)
    ensures fresh(state)
    ensures state.uid == KnownString(field.uid) && state.title == KnownString(field.title)
    ensures state.description == KnownString(field.description)
    ensures state.maintainRevisions == KnownBool(field.maintainRevisions)
    ensures state.schema == KnownString(field.schema)
  {
    state := new GlobalFieldData(KnownString(field.uid), KnownString(field.title), KnownString(field.description),
                                 KnownBool(field.maintainRevisions), KnownString(field.schema));
  }

  /**
   * `NewGlobalFieldInput`: the payload sent for a planned or stored global
   * field. It carries UID, title, description and the revisions flag, and
   * its schema is the state's schema text.
   */
  function NewGlobalFieldInput(field: GlobalFieldData): (input: GlobalFieldInput)
    reads field
    ensures input.uid == field.uid.value && input.title == field.title.value
    ensures input.description == field.description.value
    ensures input.maintainRevisions == field.maintainRevisions.value
    ensures input.schema == field.schema.value
  {
    GlobalFieldInput(field.uid.value, field.title.value, field.description.value,
                     field.maintainRevisions.value, field.schema.value)
  }

  /**
   * `MergeGlobalField`: the state `out` keeps the schema text of the plan
   * `planned` (the source's `in`) instead of the API's. Nothing else in `out`
   * changes and `planned` is left as it was; when `out` already holds the
   * planned schema nothing changes at all, so merging twice is the same as
   * merging once.
   */
  method MergeGlobalField(out: GlobalFieldData, planned: GlobalFieldData)
    modifies out
    ensures out.schema == old(planned.schema)
    ensures out.uid == old(out.uid) && out.title == old(out.title)
    ensures out.description == old(out.description) && out.maintainRevisions == old(out.maintainRevisions)
    ensures planned.uid == old(planned.uid) && planned.title == old(planned.title) && planned.description == old(planned.description)
    ensures planned.maintainRevisions == old(planned.maintainRevisions) && planned.schema == old(planned.schema)
    ensures old(out.schema) == old(planned.schema) ==> unchanged(out)
  {
    out.schema := planned.schema;
  }

  /**
   * The state written by Create and Update: built from the API's response,
   * then merged with the plan, so its schema is the plan's whatever the API
   * returned, and everything else is the API's.
   */
  method WriteState(resource: GlobalField, plan: GlobalFieldData) returns (state: GlobalFieldData)
    ensures fresh(state)
    ensures state.schema == plan.schema
    ensures state.uid == KnownString(resource.uid) && state.title == KnownString(resource.title)
    ensures state.description == KnownString(resource.description)
    ensures state.maintainRevisions == KnownBool(resource.maintainRevisions)
  {
    state := NewGlobalFieldData(resource);
    MergeGlobalField(state, plan);
  }

  // Properties

  /** Sending the state built from a remote global field back sends exactly that field. */
  lemma GlobalFieldRoundTrip(field: GlobalField, state: GlobalFieldData)
    requires state.uid == KnownString(field.uid) && state.title == KnownString(field.title)
    requires state.description == KnownString(field.description)
    requires state.maintainRevisions == KnownBool(field.maintainRevisions)
    requires state.schema == KnownString(field.schema)
    ensures NewGlobalFieldInput(state)
         == GlobalFieldInput(field.uid, field.title, field.description, field.maintainRevisions, field.schema)
  {
  }
}
