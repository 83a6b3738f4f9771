/**
 * The content type resource: mapping between Terraform state
 * (ContentTypeData) and the SDK's content type records, and the merge that
 * keeps the planned schema text in the state.
 */
module ResourceContentType {
  import opened Framework
  import opened Management

  /**
   * The Terraform-side state and plan of a content type. A class, because
   * MergeContentType updates a record in place through a pointer.
   */
  class ContentTypeData {
    var uid: TfString
    var title: TfString
    var description: TfString
    var schema: TfString

    constructor (uid: TfString, title: TfString, description: TfString, schema: TfString)
      ensures this.uid == uid && this.title == title && this.description == description
      ensures this.schema == schema
    {
      this.uid := uid;
      this.title := title;
      this.description := description;
      this.schema := schema;
    }
  }

  /**
   * `NewContentTypeData`: a new state record from a content type the API
   * returned; the schema is the JSON text of the remote schema.
   */
  method NewContentTypeData(field: ContentType) returns (state: ContentTypeData)
    ensures fresh(state)
    ensures state.uid == KnownString(field.uid) && state.title == KnownString(field.title)
    ensures state.description == KnownString(field.description)
    ensures state.schema == KnownString(field.schema)
  {
    state := new ContentTypeData(KnownString(field.uid), KnownString(field.title), KnownString(field.description),
                                 KnownString(field.schema));
  }

  /**
   * `NewContentTypeInput`: the payload sent for a planned or stored content
   * type. It carries UID, title and description, and its schema is the
   * state's schema text.
   */
  function NewContentTypeInput(field: ContentTypeData): (input: ContentTypeInput)
    reads field
    ensures input.uid == field.uid.value && input.title == field.title.value
    ensures input.description == field.description.value
    ensures input.schema == field.schema.value
  {
    ContentTypeInput(field.uid.value, field.title.value, field.description.value, field.schema.value)
  }

  /**
   * `MergeContentType`: the state `out` keeps the schema text of the plan
   * `planned` (the source's `in`) instead of the API's. Nothing else in `out`
   * changes and `planned` is left as it was; when `out` already holds the
   * planned schema nothing changes at all, so merging twice is the same as
   * merging once.
   */
  method MergeContentType(out: ContentTypeData, planned: ContentTypeData)
    modifies out
    ensures out.schema == old(planned.schema)
    ensures out.uid == old(out.uid) && out.title == old(out.title)
    ensures out.description == old(out.description)
    ensures planned.uid == old(planned.uid) && planned.title == old(planned.title) && planned.description == old(planned.description)
    ensures planned.schema == old(planned.schema)
    ensures old(out.schema) == old(planned.schema) ==> unchanged(out)
  {
    out.schema := planned.schema;
  }

  /**
   * The state written by Create and Update: built from the API's response,
   * then merged with the plan, so its schema is the plan's whatever the API
   * returned, and everything else is the API's.
   */
  method WriteState(resource: ContentType, plan: ContentTypeData) returns (state: ContentTypeData)
    ensures fresh(state)
    ensures state.schema == plan.schema
    ensures state.uid == KnownString(resource.uid) && state.title == KnownString(resource.title)
    ensures state.description == KnownString(resource.description)
  {
    state := NewContentTypeData(resource);
    MergeContentType(state, plan);
  }

  // Properties

  /** Sending the state built from a remote content type back sends exactly that content type. */
  lemma ContentTypeRoundTrip(field: ContentType, state: ContentTypeData)
    requires state.uid == KnownString(field.uid) && state.title == KnownString(field.title)
    requires state.description == KnownString(field.description)
    requires state.schema == KnownString(field.schema)
    ensures NewContentTypeInput(state)
         == ContentTypeInput(field.uid, field.title, field.description, field.schema)
  {
  }
}
