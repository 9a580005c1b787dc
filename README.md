# MDS REST gateway: request builder model

This project models the request builder of the MDS REST API, an ASP.NET
controller that fronts a Master Data Services (MDS) endpoint. Each controller
action takes flat identifiers: model, version and entity names, a member name
or code, a member type, a hierarchy name and a changeset name. It assembles
the nested request the MDS service expects and forwards it in one remote call.
The response comes back to the caller unchanged.

Layout:

- `optional.dfy` (`Optional`): `Option`, which stands for a null reference or a field left unassigned.
- `cs_strings.dfy` (`CsStrings`): C# strings as nullable text (`CsString`), `string.IsNullOrEmpty`, and how a null operand behaves in `+`.
- `mds_service.dfy` (`MdsService`): the proxy records and enumerations, with only the fields the controller touches.
- `mds_requests.dfy` (`MdsRequests`): one pure function per action giving the request it sends, plus the lookup filter, its reader `SearchValue` and `QuoteCount`.
- `mds_properties.dfy` (`MdsProperties`): lemmas about those requests. They cover the shape of each request and exactly which inputs it depends on. They cover the "ROOT" sentinel, the forced `Leaf` container type, changeset staging and the lookup filter's injection hazard.
- `mds_controller.dfy` (`MdsController`): the nine actions. Each builds its request step by step, as the controller does: the values are assigned, the collections are made and then added to. The action then passes the request to the remote operation, which is a function parameter, and returns what that operation returns.

Modelling choices:

- Every C# `string` parameter is a `CsString` (`None` is null). In C#, `"Name = '" + null + "'"` gives `Name = ''`, so a null member name or code searches for the empty string (`TextOf`).
- A field the controller may leave unset is an `Option`. This covers `Parents`, `Attributes`, `ChangesetId`, a member identifier's `Name` and `Code`, and the enumeration fields it does not assign (`MemberIdentifier.MemberType` of the "ROOT" parent, `Parent.RelationshipType` on create). `None` means null, or for enumerations, the proxy's zero value. Fields it always assigns are plain fields.
- The proxy objects are values. The controller never changes an object after adding it to a collection, so value semantics give the same request as the C# reference semantics.
- The lookup filter's value is pasted in unescaped. The model keeps this, as the code does. `SearchTermSingleLiteral` states the hazard: the filter holds one quoted literal exactly when the value has no single quote. `CraftedNameWidensFilter` shows a name that turns a lookup by name into "by name OR by code".
- Update and relationship update force the container type to `Leaf`, while delete copies the caller's type. The model keeps both behaviours as written.
- The identifiers are not checked to be non-empty, since the code does no such check. Only the changeset name is tested, with `IsNullOrEmpty`.

## Model

| member | source | states |
|---|---|---|
| MdsRequests.ChangesetFor | Controllers/MDSController.cs:72-75 | a changeset identifier is present exactly when the name is neither null nor empty, and then it carries that name |
| MdsProperties.CreateRequestShape | Controllers/MDSController.cs:49-77 | create asks for the created identifiers back; the container carries the model, version and entity names and the given member type; it holds exactly one member, identified by the given name, code and type, with no attributes |
| MdsProperties.CreateParentsOnlyWhenConsolidated | Controllers/MDSController.cs:61-70 | the new member has a parents collection exactly when it is consolidated; that collection is one parent in the named hierarchy with code "ROOT", no name, and member and relationship types left unset |
| MdsProperties.CreateRequestDeterminedBy | Controllers/MDSController.cs:46-77 | two creates send equal requests if and only if their parameters agree; the hierarchy name counts only for a consolidated member, and a null changeset name equals an empty one |
| MdsProperties.StagedExactlyWhenNamed | Controllers/MDSController.cs:156-159 | create, update and delete carry a changeset exactly when its name is neither null nor empty, all with that name (lines 72-75, 156-159, 217-220); a relationship update never carries one |
| MdsProperties.SearchTermRoundTrip | Controllers/MDSController.cs:100 | the `<field> = '<value>'` filter reads back as the value it was built from, with null read as empty |
| MdsProperties.SearchFieldsDistinct | Controllers/MDSController.cs:122 | a filter on names never reads as a filter on codes, and a filter on codes never reads as one on names |
| MdsProperties.GetByNameRequestShape | Controllers/MDSController.cs:95-100 | lookup by name copies model, version, entity and member type, asks for full data, and its filter reads back as exactly the given name on the Name field |
| MdsProperties.GetByCodeRequestShape | Controllers/MDSController.cs:117-122 | lookup by code copies model, version, entity and member type, asks for full data, and its filter reads back as exactly the given code on the Code field |
| MdsProperties.SearchTermSingleLiteral | Controllers/MDSController.cs:100 | the filter has two more quotes than the value; so it holds a single quoted literal if and only if the value contains no quote (no escaping) |
| MdsProperties.CraftedNameWidensFilter | Controllers/MDSController.cs:100 | the name `a' OR Code = 'b` yields exactly the filter for name a, then " OR ", then the filter for code b |
| MdsProperties.UpdateRequestShape | Controllers/MDSController.cs:139-154 | a rename always has a Leaf container, whatever member type is passed; its one member is identified by code and the passed type, with no name; it has exactly one "Name" String attribute holding the new name; it has no parents |
| MdsProperties.UpdateRequestDeterminedBy | Controllers/MDSController.cs:133-159 | two renames send equal requests if and only if all their parameters agree, with a null changeset name equal to an empty one |
| MdsProperties.RelationshipRequestShape | Controllers/MDSController.cs:175-192 | a relationship update has a Leaf container and no changeset; its one child is identified by code as a Leaf, with an empty attribute collection; it has exactly one parent, a Consolidated member identified by code in the named hierarchy, with relationship type Parent |
| MdsProperties.RelationshipRequestDeterminedBy | Controllers/MDSController.cs:169-192 | two relationship updates send equal requests if and only if all six parameters agree |
| MdsProperties.RenameIsNotRelink | Controllers/MDSController.cs:183-192 | no rename request equals any relationship request, though both go to the same remote update operation |
| MdsProperties.DeleteRequestShape | Controllers/MDSController.cs:208-215 | the container takes exactly the caller's member type; it holds exactly one member, identified by code and that type, with no attributes and no parents |
| MdsProperties.DeleteRequestDeterminedBy | Controllers/MDSController.cs:202-220 | two deletes send equal requests if and only if all their parameters agree, with a null changeset name equal to an empty one |
| MdsProperties.ChangesetSaveRequestCopies | Controllers/MDSController.cs:233-243 | each parameter lands in its own field, and the caller's identifier object is passed through; two saves are equal if and only if their parameters are |
| MdsProperties.ChangesetDeleteRequestCopies | Controllers/MDSController.cs:253-258 | model, version and changeset name land in their own fields; two deletes are equal if and only if their parameters are |
| MdsProperties.ChangesetsGetRequestCopies | Controllers/MDSController.cs:268-274 | model, version, entity and status land in their own fields; two queries are equal if and only if their parameters are |
| MdsProperties.ChangesetsGetDefaultStatus | Controllers/MDSController.cs:266 | a changeset query that gives no status asks for NotSpecified |
| MdsController.CreateEntityMember | Controllers/MDSController.cs:46-83 | the step-by-step build sends exactly `CreateRequest`, and the remote create's response is returned unchanged |
| MdsController.GetEntityMemberByName | Controllers/MDSController.cs:88-105 | sends exactly `GetByNameRequest`, and the remote response is returned unchanged |
| MdsController.GetEntityMemberByCode | Controllers/MDSController.cs:110-127 | sends exactly `GetByCodeRequest`, and the remote response is returned unchanged |
| MdsController.UpdateEntityMember | Controllers/MDSController.cs:133-164 | sends exactly `UpdateRequest`, and the remote response is returned unchanged |
| MdsController.UpdateEntityMemberRelationship | Controllers/MDSController.cs:169-197 | sends exactly `RelationshipRequest`, and the remote response is returned unchanged |
| MdsController.DeleteEntityMember | Controllers/MDSController.cs:202-226 | sends exactly `DeleteRequest`, and the remote response is returned unchanged |
| MdsController.ChangesetSave | Controllers/MDSController.cs:230-247 | sends exactly `ChangesetSaveRequest`, and the remote response is returned unchanged |
| MdsController.ChangesetDelete | Controllers/MDSController.cs:251-262 | sends exactly `ChangesetDeleteRequest`, and the remote response is returned unchanged |
| MdsController.ChangesetsGet | Controllers/MDSController.cs:266-278 | sends exactly `ChangesetsGetRequest`, with status NotSpecified when none is given, and the remote response is returned unchanged |

## Left out

- Client construction and credentials (`GetClientProxy`, Controllers/MDSController.cs:282-302): WCF transport and authentication plumbing over a library that is not part of this model.
- The remote calls. Each is a function parameter of its action, with an arbitrary response type. What the service does with a request is not modelled: what a changeset status means, whether "ROOT" exists, and how the filter language reads a quote. Exceptions the call raises would reach the caller unchanged in C#, and are not modelled.
- The routing and HTTP attributes, the logger, the configuration lookups (Controllers/MDSController.cs:13-34) and the constant `SayHello` (Controllers/MDSController.cs:36-40): framework code with no logic.
- The generated proxy types (the `MasterData.MDSService` namespace) are not part of this model. Only the fields the controller sets are declared, and `Identifier` has only its name. The enumeration variants other than those the code names (`Leaf`, `Consolidated`, `Parent`, `String`, `Data`, `NotSpecified`) are placeholders for the service's remaining values. An out-of-range enumeration value passed in from C# is not modelled.
- A field set to null and a field never assigned are the same `None`. The controller never assigns null on purpose; only caller strings and the caller's changeset identifier can be null.
