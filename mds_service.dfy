/** The proxy types of the remote Master Data Services endpoint that the
    controller fills in.  Only the fields the controller touches are declared.
    A field the controller always assigns is a plain field; a field it may
    leave unset is an `Option`, with `None` for the null reference or, for an
    enumeration, for the zero value the generated proxy gives it. */
module MdsService {
  import opened Optional
  import opened CsStrings

  /** The kind of an entity member.  The controller names only `Leaf` and
      `Consolidated`; the others stand for the remaining service values. */
  datatype MemberType = Leaf | Consolidated | Collection

  /** The kind of hierarchy edge a `Parent` entry describes. */
  datatype RelationshipType = Parent | Sibling

  /** The type of an attribute value. */
  datatype AttributeValueType = String | Number | DateTime | Domain | File

  /** The lifecycle state of a changeset. The service decides what each means. */
  datatype ChangesetStatus = NotSpecified | Open | Pending | Approved | Rejected | Committed

  /** How much of each member a lookup returns. */
  datatype MemberReturnOption = Data | Count | DataAndCounts

  /** A reference to a model, version, entity, hierarchy, attribute or changeset by name. */
  datatype Identifier = Identifier(name: CsString)

  /** A reference to a member by name and/or code, with its member type. */
  datatype MemberIdentifier = MemberIdentifier(name: CsString, code: CsString, memberType: Option<MemberType>)

  /** A hierarchy edge: the member carrying it is a child of `parentId` in `hierarchyId`. */
  datatype Parent = Parent(hierarchyId: Identifier, parentId: MemberIdentifier, relationshipType: Option<RelationshipType>)

  /** A typed value for the attribute named by `identifier`. */
  datatype Attribute = Attribute(identifier: Identifier, attributeType: AttributeValueType, value: CsString)

  /** One member of a create, update or delete payload. */
  datatype Member = Member(memberId: MemberIdentifier, attributes: Option<seq<Attribute>>, parents: Option<seq<Parent>>)

  /** The container of members sent by create, update and delete. */
  datatype EntityMembers = EntityMembers(
    modelId: Identifier,
    versionId: Identifier,
    entityId: Identifier,
    memberType: MemberType,
    changesetId: Option<Identifier>,
    members: seq<Member>)

  datatype EntityMembersCreateRequest = EntityMembersCreateRequest(members: EntityMembers, returnCreatedIdentifiers: bool)

  datatype EntityMembersGetCriteria = EntityMembersGetCriteria(
    modelId: Identifier,
    versionId: Identifier,
    entityId: Identifier,
    memberType: MemberType,
    memberReturnOption: MemberReturnOption,
    searchTerm: string)

  datatype EntityMembersGetRequest = EntityMembersGetRequest(membersGetCriteria: EntityMembersGetCriteria)

  datatype EntityMembersUpdateRequest = EntityMembersUpdateRequest(members: EntityMembers)

  datatype EntityMembersDeleteRequest = EntityMembersDeleteRequest(members: EntityMembers)

  /** A changeset as saved: its identifier is the caller's object, which may be null. */
  datatype Changeset = Changeset(identifier: Option<Identifier>, entityId: Identifier, status: ChangesetStatus)

  datatype EntityMemberChangesetSaveRequest = EntityMemberChangesetSaveRequest(
    modelId: Identifier, versionId: Identifier, changeset: Changeset)

  datatype EntityMemberChangesetDeleteRequest = EntityMemberChangesetDeleteRequest(
    modelId: Identifier, versionId: Identifier, changesetId: Identifier)

  datatype EntityMemberChangesetsGetRequest = EntityMemberChangesetsGetRequest(
    modelId: Identifier, versionId: Identifier, entityId: Identifier, status: ChangesetStatus)
}
