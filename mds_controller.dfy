/** The controller's actions.  Each builds its request step by step, as the
    controller does, and hands it to the remote operation, which is a
    parameter here; the response comes back unchanged. */
module MdsController {
  import opened Optional
  import opened CsStrings
  import opened MdsService
  import opened MdsRequests

  /** Creates a member; a consolidated member goes under the root of `hierarchyName`. */
  method CreateEntityMember<R>(entityMembersCreate: EntityMembersCreateRequest -> R,
                               modelName: CsString, versionName: CsString, entityName: CsString,
                               aNewMemberName: CsString, aNewCode: CsString, memberType: MemberType,
                               hierarchyName: CsString := None, changesetName: CsString := None)
    returns (createResponse: R)
    ensures createResponse == entityMembersCreate(CreateRequest(modelName, versionName, entityName, aNewMemberName,
                                                                 aNewCode, memberType, hierarchyName, changesetName))
  {
    var members := EntityMembers(Identifier(modelName), Identifier(versionName), Identifier(entityName),
                                 memberType, None, []);
    var aNewMember := Member(MemberIdentifier(aNewMemberName, aNewCode, Some(memberType)), None, None);
    if memberType == Consolidated {
      var parents: seq<Parent> := [];
      var aParent := Parent.Parent(Identifier(hierarchyName), MemberIdentifier(None, Some(RootCode), None), None);
      parents := parents + [aParent];
      assert parents == [RootParent(hierarchyName)];
      aNewMember := aNewMember.(parents := Some(parents));
    }
    if !IsNullOrEmpty(changesetName) {
      members := members.(changesetId := Some(Identifier(changesetName)));
    }
    members := members.(members := members.members + [aNewMember]);
    assert members.members == [aNewMember];
    var createRequest := EntityMembersCreateRequest(members, true);
    createResponse := entityMembersCreate(createRequest);
  }

  /** Looks a member up by name. */
  method GetEntityMemberByName<R>(entityMembersGet: EntityMembersGetRequest -> R,
                                  modelName: CsString, versionName: CsString, entityName: CsString,
                                  memberType: MemberType, memberName: CsString)
    returns (getResponse: R)
    ensures getResponse == entityMembersGet(GetByNameRequest(modelName, versionName, entityName, memberType, memberName))
  {
    var criteria := EntityMembersGetCriteria(Identifier(modelName), Identifier(versionName), Identifier(entityName),
                                             memberType, Data, "");
    criteria := criteria.(searchTerm := SearchTerm(NameField, memberName));
    getResponse := entityMembersGet(EntityMembersGetRequest(criteria));
  }

  /** Looks a member up by code. */
  method GetEntityMemberByCode<R>(entityMembersGet: EntityMembersGetRequest -> R,
                                  modelName: CsString, versionName: CsString, entityName: CsString,
                                  memberType: MemberType, memberCode: CsString)
    returns (getResponse: R)
    ensures getResponse == entityMembersGet(GetByCodeRequest(modelName, versionName, entityName, memberType, memberCode))
  {
    var criteria := EntityMembersGetCriteria(Identifier(modelName), Identifier(versionName), Identifier(entityName),
                                             memberType, Data, "");
    criteria := criteria.(searchTerm := SearchTerm(CodeField, memberCode));
    getResponse := entityMembersGet(EntityMembersGetRequest(criteria));
  }

  /** Renames the member with code `memberCode`. */
  method UpdateEntityMember<R>(entityMembersUpdate: EntityMembersUpdateRequest -> R,
                               modelName: CsString, versionName: CsString, entityName: CsString,
                               memberCode: CsString, memberType: MemberType, newMemberName: CsString,
                               changesetName: CsString := None)
    returns (updateResponse: R)
    ensures updateResponse == entityMembersUpdate(UpdateRequest(modelName, versionName, entityName, memberCode,
                                                                memberType, newMemberName, changesetName))
  {
    var members := EntityMembers(Identifier(modelName), Identifier(versionName), Identifier(entityName),
                                 Leaf, None, []);
    var attributes: seq<Attribute> := [];
    var anAttribute := Attribute(Identifier(Some(NameAttribute)), String, newMemberName);
    attributes := attributes + [anAttribute];
    assert attributes == [anAttribute];
    var aMember := Member(MemberIdentifier(None, memberCode, Some(memberType)), Some(attributes), None);
    members := members.(members := members.members + [aMember]);
    assert members.members == [aMember];
    if !IsNullOrEmpty(changesetName) {
      members := members.(changesetId := Some(Identifier(changesetName)));
    }
    updateResponse := entityMembersUpdate(EntityMembersUpdateRequest(members));
  }

  /** Moves the child member under the parent member in `hierarchyName`. */
  method UpdateEntityMemberRelationship<R>(entityMembersUpdate: EntityMembersUpdateRequest -> R,
                                           modelName: CsString, versionName: CsString, entityName: CsString,
                                           hierarchyName: CsString, parentMemberCode: CsString,
                                           childMemberCode: CsString)
    returns (updateResponse: R)
    ensures updateResponse == entityMembersUpdate(RelationshipRequest(modelName, versionName, entityName,
                                                                      hierarchyName, parentMemberCode, childMemberCode))
  {
    var members := EntityMembers(Identifier(modelName), Identifier(versionName), Identifier(entityName),
                                 Leaf, None, []);
    var aMember := Member(MemberIdentifier(None, childMemberCode, Some(Leaf)), Some([]), None);
    var aParent := Parent.Parent(Identifier(hierarchyName),
                                 MemberIdentifier(None, parentMemberCode, Some(Consolidated)),
                                 Some(RelationshipType.Parent));
    var parents: seq<Parent> := [];
    parents := parents + [aParent];
    assert parents == [aParent];
    aMember := aMember.(parents := Some(parents));
    members := members.(members := members.members + [aMember]);
    assert members.members == [aMember];
    updateResponse := entityMembersUpdate(EntityMembersUpdateRequest(members));
  }

  /** Deletes the member with code `memberCode`. */
  method DeleteEntityMember<R>(entityMembersDelete: EntityMembersDeleteRequest -> R,
                               modelName: CsString, versionName: CsString, entityName: CsString,
                               memberCode: CsString, memType: MemberType, changesetName: CsString := None)
    returns (deleteResponse: R)
    ensures deleteResponse == entityMembersDelete(DeleteRequest(modelName, versionName, entityName, memberCode,
                                                                memType, changesetName))
  {
    var members := EntityMembers(Identifier(modelName), Identifier(versionName), Identifier(entityName),
                                 memType, None, []);
    var aMember := Member(MemberIdentifier(None, memberCode, Some(memType)), None, None);
    members := members.(members := members.members + [aMember]);
    assert members.members == [aMember];
    if !IsNullOrEmpty(changesetName) {
      members := members.(changesetId := Some(Identifier(changesetName)));
    }
    deleteResponse := entityMembersDelete(EntityMembersDeleteRequest(members));
  }

  /** Saves a changeset with the given status. */
  method ChangesetSave<R>(entityMemberChangesetSave: EntityMemberChangesetSaveRequest -> R,
                          modelName: CsString, versionName: CsString, entityName: CsString,
                          changesetId: Option<Identifier>, status: ChangesetStatus)
    returns (saveResponse: R)
    ensures saveResponse == entityMemberChangesetSave(ChangesetSaveRequest(modelName, versionName, entityName,
                                                                           changesetId, status))
  {
    saveResponse := entityMemberChangesetSave(ChangesetSaveRequest(modelName, versionName, entityName,
                                                                   changesetId, status));
  }

  /** Deletes the changeset called `name`. */
  method ChangesetDelete<R>(entityMemberChangesetDelete: EntityMemberChangesetDeleteRequest -> R,
                            modelName: CsString, versionName: CsString, name: CsString)
    returns (deleteResponse: R)
    ensures deleteResponse == entityMemberChangesetDelete(ChangesetDeleteRequest(modelName, versionName, name))
  {
    deleteResponse := entityMemberChangesetDelete(ChangesetDeleteRequest(modelName, versionName, name));
  }

  /** Lists the changesets of an entity with the given status. */
  method ChangesetsGet<R>(entityMemberChangesetsGet: EntityMemberChangesetsGetRequest -> R,
                          modelName: CsString, versionName: CsString, entityName: CsString,
                          status: ChangesetStatus := ChangesetStatus.NotSpecified)
    returns (getResponse: R)
    ensures getResponse == entityMemberChangesetsGet(ChangesetsGetRequest(modelName, versionName, entityName, status))
  {
    getResponse := entityMemberChangesetsGet(ChangesetsGetRequest(modelName, versionName, entityName, status));
  }
}
