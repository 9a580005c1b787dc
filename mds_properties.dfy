/** What the requests built by the controller promise: their shape, the
    inputs each one depends on, and the lookup filter's injection hazard. */
module MdsProperties {
  import opened Optional
  import opened CsStrings
  import opened MdsService
  import opened MdsRequests

  /** Two changeset names that stage a call in the same way: equal, or both
      null-or-empty (and so both unstaged). */
  predicate SameStaging(s1: CsString, s2: CsString) {
    s1 == s2 || (IsNullOrEmpty(s1) && IsNullOrEmpty(s2))
  }

  // ---------------------------------------------------------------- create

  lemma CreateRequestShape(modelName: CsString, versionName: CsString, entityName: CsString,
                           aNewMemberName: CsString, aNewCode: CsString, memberType: MemberType,
                           hierarchyName: CsString, changesetName: CsString)
    ensures var r := CreateRequest(modelName, versionName, entityName, aNewMemberName, aNewCode,
                                   memberType, hierarchyName, changesetName);
      && r.returnCreatedIdentifiers
      && r.members.modelId.name == modelName
      && r.members.versionId.name == versionName
      && r.members.entityId.name == entityName
      && r.members.memberType == memberType
      && |r.members.members| == 1
      && r.members.members[0].memberId == MemberIdentifier(aNewMemberName, aNewCode, Some(memberType))
      && r.members.members[0].attributes == None
  {
  }

  /** A consolidated member is created under the root of the named hierarchy;
      any other member gets no parents collection at all. */
  lemma CreateParentsOnlyWhenConsolidated(modelName: CsString, versionName: CsString, entityName: CsString,
                                          aNewMemberName: CsString, aNewCode: CsString, memberType: MemberType,
                                          hierarchyName: CsString, changesetName: CsString)
    ensures var parents := CreateRequest(modelName, versionName, entityName, aNewMemberName, aNewCode,
                                         memberType, hierarchyName, changesetName).members.members[0].parents;
      && (parents.Some? <==> memberType == Consolidated)
      && (parents.Some? ==>
            && |parents.value| == 1
            && parents.value[0].hierarchyId.name == hierarchyName
            && parents.value[0].parentId.code == Some(RootCode)
            && parents.value[0].parentId.name == None
            && parents.value[0].parentId.memberType == None
            && parents.value[0].relationshipType == None)
  {
  }

  /** Two creates send the same request exactly when they agree on every
      parameter, except that the hierarchy name matters only for a
      consolidated member and a null changeset name is the same as an empty one. */
  lemma CreateRequestDeterminedBy(
      m1: CsString, v1: CsString, e1: CsString, n1: CsString, c1: CsString, t1: MemberType, h1: CsString, s1: CsString,
      m2: CsString, v2: CsString, e2: CsString, n2: CsString, c2: CsString, t2: MemberType, h2: CsString, s2: CsString)
    ensures CreateRequest(m1, v1, e1, n1, c1, t1, h1, s1) == CreateRequest(m2, v2, e2, n2, c2, t2, h2, s2)
        <==> && m1 == m2 && v1 == v2 && e1 == e2 && n1 == n2 && c1 == c2 && t1 == t2
             && (t1 == Consolidated ==> h1 == h2)
             && SameStaging(s1, s2)
  {
  }

  /** On create, update and delete the container carries a changeset exactly
      when the changeset name is neither null nor empty, and then that name;
      a relationship update never carries one. */
  lemma StagedExactlyWhenNamed(modelName: CsString, versionName: CsString, entityName: CsString,
                               memberName: CsString, memberCode: CsString, memberType: MemberType,
                               hierarchyName: CsString, parentMemberCode: CsString, changesetName: CsString)
    ensures var staged := !IsNullOrEmpty(changesetName);
      var create := CreateRequest(modelName, versionName, entityName, memberName, memberCode, memberType,
                                  hierarchyName, changesetName).members.changesetId;
      var update := UpdateRequest(modelName, versionName, entityName, memberCode, memberType, memberName,
                                  changesetName).members.changesetId;
      var delete := DeleteRequest(modelName, versionName, entityName, memberCode, memberType,
                                  changesetName).members.changesetId;
      && (create.Some? <==> staged) && (update.Some? <==> staged) && (delete.Some? <==> staged)
      && (staged ==> create == update == delete == Some(Identifier(changesetName)))
      && RelationshipRequest(modelName, versionName, entityName, hierarchyName, parentMemberCode,
                             memberCode).members.changesetId == None
  {
  }

  // ---------------------------------------------------------------- lookup

  /** A filter reads back as the value it was built from, null read as empty. */
  lemma SearchTermRoundTrip(field: string, value: CsString)
    ensures SearchValue(field, SearchTerm(field, value)) == Some(TextOf(value))
  {
  }

  /** A filter on names never reads as a filter on codes, and the other way round. */
  lemma SearchFieldsDistinct(value: CsString)
    ensures SearchValue(CodeField, SearchTerm(NameField, value)) == None
    ensures SearchValue(NameField, SearchTerm(CodeField, value)) == None
  {
    var byName := SearchTerm(NameField, value);
    var byCode := SearchTerm(CodeField, value);
    assert byName[0] == 'N' && byCode[0] == 'C';
    assert (CodeField + " = '")[0] == 'C' && (NameField + " = '")[0] == 'N';
  }

  lemma GetByNameRequestShape(modelName: CsString, versionName: CsString, entityName: CsString,
                              memberType: MemberType, memberName: CsString)
    ensures var c := GetByNameRequest(modelName, versionName, entityName, memberType, memberName).membersGetCriteria;
      && c.modelId.name == modelName && c.versionId.name == versionName && c.entityId.name == entityName
      && c.memberType == memberType
      && c.memberReturnOption == Data
      && SearchValue(NameField, c.searchTerm) == Some(TextOf(memberName))
      && SearchValue(CodeField, c.searchTerm) == None
  {
    SearchTermRoundTrip(NameField, memberName);
    SearchFieldsDistinct(memberName);
  }

  lemma GetByCodeRequestShape(modelName: CsString, versionName: CsString, entityName: CsString,
                              memberType: MemberType, memberCode: CsString)
    ensures var c := GetByCodeRequest(modelName, versionName, entityName, memberType, memberCode).membersGetCriteria;
      && c.modelId.name == modelName && c.versionId.name == versionName && c.entityId.name == entityName
      && c.memberType == memberType
      && c.memberReturnOption == Data
      && SearchValue(CodeField, c.searchTerm) == Some(TextOf(memberCode))
      && SearchValue(NameField, c.searchTerm) == None
  {
    SearchTermRoundTrip(CodeField, memberCode);
    SearchFieldsDistinct(memberCode);
  }

  lemma {:induction false} QuoteCountAppend(a: string, b: string)
    ensures QuoteCount(a + b) == QuoteCount(a) + QuoteCount(b)
  {
    if a == [] {
      assert a + b == b;
    } else {
      assert (a + b)[1..] == a[1..] + b;
      QuoteCountAppend(a[1..], b);
    }
  }

  lemma {:induction false} QuoteCountZero(s: string)
    ensures QuoteCount(s) == 0 <==> '\'' !in s
  {
    if s != [] {
      assert s == [s[0]] + s[1..];
      QuoteCountZero(s[1..]);
    }
  }

  /** The value is not escaped: the filter holds a single quoted literal
      exactly when the value contains no single quote. */
  lemma SearchTermSingleLiteral(field: string, value: CsString)
    requires field == NameField || field == CodeField
    ensures QuoteCount(SearchTerm(field, value)) == 2 + QuoteCount(TextOf(value))
    ensures QuoteCount(SearchTerm(field, value)) == 2 <==> '\'' !in TextOf(value)
  {
    var head := field + " = ";
    var text := TextOf(value);
    assert SearchTerm(field, value) == head + ("'" + (text + "'"));
    QuoteCountZero(head);
    QuoteCountAppend(head, "'" + (text + "'"));
    QuoteCountAppend("'", text + "'");
    QuoteCountAppend(text, "'");
    QuoteCountZero(text);
  }

  /** A crafted name turns the lookup by name into a disjunction with a lookup by code. */
  lemma CraftedNameWidensFilter(name: string, code: string)
    ensures SearchTerm(NameField, Some(name + "' OR Code = '" + code))
         == SearchTerm(NameField, Some(name)) + " OR " + SearchTerm(CodeField, Some(code))
  {
  }

  // ---------------------------------------------------------------- update

  /** A rename targets the member by code only, always in a Leaf container,
      whatever member type is passed, and sets only the "Name" attribute. */
  lemma UpdateRequestShape(modelName: CsString, versionName: CsString, entityName: CsString,
                           memberCode: CsString, memberType: MemberType, newMemberName: CsString,
                           changesetName: CsString)
    ensures var r := UpdateRequest(modelName, versionName, entityName, memberCode, memberType, newMemberName,
                                   changesetName).members;
      && r.modelId.name == modelName && r.versionId.name == versionName && r.entityId.name == entityName
      && r.memberType == Leaf
      && |r.members| == 1
      && r.members[0].memberId == MemberIdentifier(None, memberCode, Some(memberType))
      && r.members[0].attributes == Some([Attribute(Identifier(Some("Name")), String, newMemberName)])
      && r.members[0].parents == None
  {
  }

  /** Two renames send the same request exactly when they agree on every
      parameter, a null changeset name being the same as an empty one. */
  lemma UpdateRequestDeterminedBy(
      m1: CsString, v1: CsString, e1: CsString, c1: CsString, t1: MemberType, n1: CsString, s1: CsString,
      m2: CsString, v2: CsString, e2: CsString, c2: CsString, t2: MemberType, n2: CsString, s2: CsString)
    ensures UpdateRequest(m1, v1, e1, c1, t1, n1, s1) == UpdateRequest(m2, v2, e2, c2, t2, n2, s2)
        <==> m1 == m2 && v1 == v2 && e1 == e2 && c1 == c2 && t1 == t2 && n1 == n2 && SameStaging(s1, s2)
  {
  }

  /** A relationship update moves the child, a Leaf named by code, under the
      consolidated parent named by code in the given hierarchy, and nothing else. */
  lemma RelationshipRequestShape(modelName: CsString, versionName: CsString, entityName: CsString,
                                 hierarchyName: CsString, parentMemberCode: CsString, childMemberCode: CsString)
    ensures var r := RelationshipRequest(modelName, versionName, entityName, hierarchyName, parentMemberCode,
                                         childMemberCode).members;
      && r.modelId.name == modelName && r.versionId.name == versionName && r.entityId.name == entityName
      && r.memberType == Leaf
      && r.changesetId == None
      && |r.members| == 1
      && r.members[0].memberId == MemberIdentifier(None, childMemberCode, Some(Leaf))
      && r.members[0].attributes == Some([])
      && r.members[0].parents.Some? && |r.members[0].parents.value| == 1
      && r.members[0].parents.value[0].parentId == MemberIdentifier(None, parentMemberCode, Some(Consolidated))
      && r.members[0].parents.value[0].hierarchyId.name == hierarchyName
      && r.members[0].parents.value[0].relationshipType == Some(RelationshipType.Parent)
  {
  }

  /** Two relationship updates send the same request exactly when all their parameters agree. */
  lemma RelationshipRequestDeterminedBy(
      m1: CsString, v1: CsString, e1: CsString, h1: CsString, p1: CsString, c1: CsString,
      m2: CsString, v2: CsString, e2: CsString, h2: CsString, p2: CsString, c2: CsString)
    ensures RelationshipRequest(m1, v1, e1, h1, p1, c1) == RelationshipRequest(m2, v2, e2, h2, p2, c2)
        <==> m1 == m2 && v1 == v2 && e1 == e2 && h1 == h2 && p1 == p2 && c1 == c2
  {
  }

  /** Renames and relationship updates go to the same remote operation; no
      rename request is ever a relationship request. */
  lemma RenameIsNotRelink(
      modelName: CsString, versionName: CsString, entityName: CsString, memberCode: CsString,
      memberType: MemberType, newMemberName: CsString, changesetName: CsString,
      modelName': CsString, versionName': CsString, entityName': CsString, hierarchyName: CsString,
      parentMemberCode: CsString, childMemberCode: CsString)
    ensures UpdateRequest(modelName, versionName, entityName, memberCode, memberType, newMemberName, changesetName)
         != RelationshipRequest(modelName', versionName', entityName', hierarchyName, parentMemberCode, childMemberCode)
  {
  }

  // ---------------------------------------------------------------- delete

  /** A delete targets the member by code, and the container takes exactly
      the caller's member type. */
  lemma DeleteRequestShape(modelName: CsString, versionName: CsString, entityName: CsString,
                           memberCode: CsString, memType: MemberType, changesetName: CsString)
    ensures var r := DeleteRequest(modelName, versionName, entityName, memberCode, memType, changesetName).members;
      && r.modelId.name == modelName && r.versionId.name == versionName && r.entityId.name == entityName
      && r.memberType == memType
      && |r.members| == 1
      && r.members[0].memberId == MemberIdentifier(None, memberCode, Some(memType))
      && r.members[0].attributes == None
      && r.members[0].parents == None
  {
  }

  /** Two deletes send the same request exactly when they agree on every
      parameter, a null changeset name being the same as an empty one. */
  lemma DeleteRequestDeterminedBy(
      m1: CsString, v1: CsString, e1: CsString, c1: CsString, t1: MemberType, s1: CsString,
      m2: CsString, v2: CsString, e2: CsString, c2: CsString, t2: MemberType, s2: CsString)
    ensures DeleteRequest(m1, v1, e1, c1, t1, s1) == DeleteRequest(m2, v2, e2, c2, t2, s2)
        <==> m1 == m2 && v1 == v2 && e1 == e2 && c1 == c2 && t1 == t2 && SameStaging(s1, s2)
  {
  }

  // ---------------------------------------------------------------- changesets

  lemma ChangesetSaveRequestCopies(
      m1: CsString, v1: CsString, e1: CsString, i1: Option<Identifier>, st1: ChangesetStatus,
      m2: CsString, v2: CsString, e2: CsString, i2: Option<Identifier>, st2: ChangesetStatus)
    ensures var r := ChangesetSaveRequest(m1, v1, e1, i1, st1);
      && r.modelId.name == m1 && r.versionId.name == v1
      && r.changeset.identifier == i1 && r.changeset.entityId.name == e1 && r.changeset.status == st1
    ensures ChangesetSaveRequest(m1, v1, e1, i1, st1) == ChangesetSaveRequest(m2, v2, e2, i2, st2)
        <==> m1 == m2 && v1 == v2 && e1 == e2 && i1 == i2 && st1 == st2
  {
  }

  lemma ChangesetDeleteRequestCopies(m1: CsString, v1: CsString, n1: CsString, m2: CsString, v2: CsString, n2: CsString)
    ensures var r := ChangesetDeleteRequest(m1, v1, n1);
      r.modelId.name == m1 && r.versionId.name == v1 && r.changesetId.name == n1
    ensures ChangesetDeleteRequest(m1, v1, n1) == ChangesetDeleteRequest(m2, v2, n2)
        <==> m1 == m2 && v1 == v2 && n1 == n2
  {
  }

  lemma ChangesetsGetRequestCopies(
      m1: CsString, v1: CsString, e1: CsString, st1: ChangesetStatus,
      m2: CsString, v2: CsString, e2: CsString, st2: ChangesetStatus)
    ensures var r := ChangesetsGetRequest(m1, v1, e1, st1);
      r.modelId.name == m1 && r.versionId.name == v1 && r.entityId.name == e1 && r.status == st1
    ensures ChangesetsGetRequest(m1, v1, e1, st1) == ChangesetsGetRequest(m2, v2, e2, st2)
        <==> m1 == m2 && v1 == v2 && e1 == e2 && st1 == st2
  {
  }

  /** A changeset query without a status asks for status NotSpecified. */
  lemma ChangesetsGetDefaultStatus(modelName: CsString, versionName: CsString, entityName: CsString)
    ensures ChangesetsGetRequest(modelName, versionName, entityName).status == ChangesetStatus.NotSpecified
    ensures ChangesetsGetRequest(modelName, versionName, entityName)
         == ChangesetsGetRequest(modelName, versionName, entityName, ChangesetStatus.NotSpecified)
  {
  }
}
