/** The request each controller action sends to the remote endpoint, as a
    function of the action's parameters, and what those requests promise. */
module MdsRequests {
  import opened Optional
  import opened CsStrings
  import opened MdsService

  /** The parent code that stands for the root node of a hierarchy. */
  const RootCode := "ROOT"

  /** The attribute a rename sets. */
  const NameAttribute := "Name"

  /** The fields a lookup filters on. */
  const NameField := "Name"
  const CodeField := "Code"

  /** The changeset a create, update or delete is staged in: none when the
      name is null or empty. */
  function ChangesetFor(changesetName: CsString): (r: Option<Identifier>)
    ensures r.Some? <==> !IsNullOrEmpty(changesetName)
    ensures r.Some? ==> r.value.name == changesetName
  {
    if IsNullOrEmpty(changesetName) then None else Some(Identifier(changesetName))
  }

  /** The parent entry a new consolidated member gets: the root of `hierarchyName`. */
  function RootParent(hierarchyName: CsString): Parent {
    Parent.Parent(Identifier(hierarchyName), MemberIdentifier(None, Some(RootCode), None), None)
  }

  // ---------------------------------------------------------------- create

  function CreateRequest(modelName: CsString, versionName: CsString, entityName: CsString,
                         aNewMemberName: CsString, aNewCode: CsString, memberType: MemberType,
                         hierarchyName: CsString := None, changesetName: CsString := None): EntityMembersCreateRequest
  {
    var parents := if memberType == Consolidated then Some([RootParent(hierarchyName)]) else None;
    var newMember := Member(MemberIdentifier(aNewMemberName, aNewCode, Some(memberType)), None, parents);
    EntityMembersCreateRequest(
      EntityMembers(Identifier(modelName), Identifier(versionName), Identifier(entityName), memberType,
                    ChangesetFor(changesetName), [newMember]),
      true)
  }

  // ---------------------------------------------------------------- lookup

  /** The filter expression of a lookup: `<field> = '<value>'`, with the
      value inserted as it is. */
  function SearchTerm(field: string, value: CsString): string {
    field + " = '" + TextOf(value) + "'"
  }

  /** Reads back the value of a filter `<field> = '<value>'`, if `term` has that form. */
  function SearchValue(field: string, term: string): Option<string> {
    var prefix := field + " = '";
    if |prefix| < |term| && term[..|prefix|] == prefix && term[|term| - 1] == '\'' then
      Some(term[|prefix|..|term| - 1])
    else
      None
  }

  /** The number of single quotes in `s`, each of which opens or closes a literal in a filter. */
  function QuoteCount(s: string): nat {
    if s == [] then 0 else (if s[0] == '\'' then 1 else 0) + QuoteCount(s[1..])
  }

  function GetCriteria(modelName: CsString, versionName: CsString, entityName: CsString,
                       memberType: MemberType, searchTerm: string): EntityMembersGetCriteria
  {
    EntityMembersGetCriteria(Identifier(modelName), Identifier(versionName), Identifier(entityName),
                             memberType, Data, searchTerm)
  }

  function GetByNameRequest(modelName: CsString, versionName: CsString, entityName: CsString,
                            memberType: MemberType, memberName: CsString): EntityMembersGetRequest
  {
    EntityMembersGetRequest(GetCriteria(modelName, versionName, entityName, memberType,
                                        SearchTerm(NameField, memberName)))
  }

  function GetByCodeRequest(modelName: CsString, versionName: CsString, entityName: CsString,
                            memberType: MemberType, memberCode: CsString): EntityMembersGetRequest
  {
    EntityMembersGetRequest(GetCriteria(modelName, versionName, entityName, memberType,
                                        SearchTerm(CodeField, memberCode)))
  }

  // ---------------------------------------------------------------- update

  function UpdateRequest(modelName: CsString, versionName: CsString, entityName: CsString,
                         memberCode: CsString, memberType: MemberType, newMemberName: CsString,
                         changesetName: CsString := None): EntityMembersUpdateRequest
  {
    var rename := Attribute(Identifier(Some(NameAttribute)), String, newMemberName);
    var member := Member(MemberIdentifier(None, memberCode, Some(memberType)), Some([rename]), None);
    EntityMembersUpdateRequest(
      EntityMembers(Identifier(modelName), Identifier(versionName), Identifier(entityName), Leaf,
                    ChangesetFor(changesetName), [member]))
  }

  function RelationshipRequest(modelName: CsString, versionName: CsString, entityName: CsString,
                               hierarchyName: CsString, parentMemberCode: CsString,
                               childMemberCode: CsString): EntityMembersUpdateRequest
  {
    var edge := Parent.Parent(Identifier(hierarchyName),
                              MemberIdentifier(None, parentMemberCode, Some(Consolidated)),
                              Some(RelationshipType.Parent));
    var child := Member(MemberIdentifier(None, childMemberCode, Some(Leaf)), Some([]), Some([edge]));
    EntityMembersUpdateRequest(
      EntityMembers(Identifier(modelName), Identifier(versionName), Identifier(entityName), Leaf,
                    None, [child]))
  }

  // ---------------------------------------------------------------- delete

  function DeleteRequest(modelName: CsString, versionName: CsString, entityName: CsString,
                         memberCode: CsString, memType: MemberType,
                         changesetName: CsString := None): EntityMembersDeleteRequest
  {
    var member := Member(MemberIdentifier(None, memberCode, Some(memType)), None, None);
    EntityMembersDeleteRequest(
      EntityMembers(Identifier(modelName), Identifier(versionName), Identifier(entityName), memType,
                    ChangesetFor(changesetName), [member]))
  }

  // ---------------------------------------------------------------- changesets

  function ChangesetSaveRequest(modelName: CsString, versionName: CsString, entityName: CsString,
                                changesetId: Option<Identifier>, status: ChangesetStatus): EntityMemberChangesetSaveRequest
  {
    EntityMemberChangesetSaveRequest(Identifier(modelName), Identifier(versionName),
                                     Changeset(changesetId, Identifier(entityName), status))
  }

  function ChangesetDeleteRequest(modelName: CsString, versionName: CsString, name: CsString): EntityMemberChangesetDeleteRequest
  {
    EntityMemberChangesetDeleteRequest(Identifier(modelName), Identifier(versionName), Identifier(name))
  }

  function ChangesetsGetRequest(modelName: CsString, versionName: CsString, entityName: CsString,
                                status: ChangesetStatus := ChangesetStatus.NotSpecified): EntityMemberChangesetsGetRequest
  {
    EntityMemberChangesetsGetRequest(Identifier(modelName), Identifier(versionName), Identifier(entityName), status)
  }
}
