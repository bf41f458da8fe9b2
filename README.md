# gppm access-control core in Dafny

gppm administers a Greenplum/PostgreSQL cluster: its roles, their memberships, the privileges
they hold on databases, schemas and tables, default privileges, owners and resource groups.
This project models the domain logic behind those operations and proves what it promises.

- **ACL codec.** The `aclitem` text notation `grantee=letters/grantor` is modelled with its
  letter table, tokeniser, decoder, encoder and the by-grantee aggregation
  (`acl_codec.dfy`). The codec round-trips every rule the notation can carry.
- **Role graph.** A membership graph drives the effective-permissions projection. Superusers
  get full-control rules, PUBLIC rules are copied to every role, and a group role's rules
  are copied to its transitive members (`digraphs.dfy`, `graph_permissions.dfy`). The
  graph class exists twice in the system, once in the Python backend and once in the
  TypeScript frontend. Both copies are modelled by the one class `Digraphs.Graph`.
- **Grant and revoke procedures** on tables, schemas and databases, with the optional deep
  revoke, plus the revoke of default privileges (`grant_*.dfy`, `grant_common.dfy`,
  `default_privileges.dfy`).
- **Resource-group procedures**: create, update and drop (`resource_groups.dfy`).
- **Role lifecycle**: create, update, drop with fallback strategies, lookup and membership
  (`roles.dfy`, `role_members.dfy`).
- **Smaller dispatches**:
  - owner transfer (`owners.dfy`);
  - the default ACLs that replace a NULL catalogue ACL (`acl_defaults.dfy`);
  - the entity type of an access rule (`access.dfy`);
  - the FNV-1a hash that picks avatar colours (`avatar_colors.dfy`).

The database is observed only through `Session.Connection`. Every statement the core issues
is appended to the connection's `trace` as an opaque record: the SQL template (one
constructor of `Session.Statement`) with the parameter values bound to it. The trace also
records the transaction boundaries of every `with conn.begin()` block.

Whether a statement fails is decided by the failure schedule `failAt`, a set of trace
positions fixed when the connection is created. This schedule stands in for the server. It
can express, for example, a first drop that fails followed by a later one that succeeds.

Each procedure is a method whose `ensures` ties the new trace and the outcome to a
specification function, called a run. Lemmas then prove what the source promises about that
run: which statements run, in what order, and when the procedure raises
`DoneWithErrors` or a `DatabaseError`.

The error vocabulary of `backend/app/app/use_case/exceptions.py` is the datatype
`Outcomes.Error`. `IsParseFailure` groups the exceptions that subclass `FailedToParseACLRule`.

Inputs and settings:

- Catalogue reads are plain inputs to the model:
  - ACL arrays;
  - the role list;
  - membership rows;
  - namespaces;
  - the current members of a resource group.
- The settings `DEEP_REVOKE`, `INSTALL_DBLINK` and `GRANT_WITH_ADMIN_OPTION` are boolean
  parameters: `deepRevoke`, `installDblink` and `grantWithAdminOption`.

Behaviour worth noting:

- **A single token without `=/`** (a bare name such as `bob`) raises `FailedToParseACLRule`:
  `AclCodec.ParseLight` accepts one token only together with `=/`.
- **`get_all_graph_permissions`** returns the rules through `parce_acl_rules` in its
  default aggregated mode (`GraphPermissions.GetAllGraphPermissions`).
- **Role capabilities.** `_create_role` and `_alter_role` format five capability keywords:
  SUPERUSER, CREATEROLE, CREATEDB, INHERIT and LOGIN (`Roles.Keywords`).
- **A drop where every strategy fails** raises `DoneWithErrors(role)`. There is no
  separate drop-failure exception (`Roles.DropFailsIffAllFail`).

## Model

| member | source | states |
|---|---|---|
| Access.TypeOfEntity | backend/app/app/schemas/access.py:37-55 | "Role", "Database" and "Schema" each exactly for its truthiness pattern of (role, database, db_schema), and "Nothing" exactly for every other pattern; an empty string counts as absent |
| Access.TypeOfEntityClosed | backend/app/app/schemas/access.py:37-55 | the computed type is always one of Role, Database, Schema, Nothing |
| Access.MixedRulesAreNothing | backend/app/app/schemas/access.py:45-55 | role with database, and schema without database, give "Nothing"; empty role and schema strings count as absent |
| Owners.NewUpdateOwner | backend/app/app/use_case/owner/owner_dto.py:12-22 | construction succeeds iff the tag is database, schema or table, compared case-sensitively, and keeps every other field as given; otherwise ValueError with the validator's message |
| Owners.OwnerStatement | backend/app/app/use_case/owner/owner_owner.py:8-66 | a known tag selects ALTER DATABASE on the database, ALTER SCHEMA on db_schema, or ALTER TABLE on schema and table, always to the requested owner; any other tag is TypeNotImplemented |
| Owners.UpdateOwnerProc | backend/app/app/use_case/owner/owner_owner.py:57-69 | an unknown tag raises before anything reaches the connection; a known one runs its one statement in one transaction and reports its fate |
| Owners.ValidatedRequestDispatches | backend/app/app/use_case/owner/owner_dto.py:19-22 | every request the validator accepts is one the dispatcher handles, and it issues exactly one statement, to the requested owner |
| AvatarColors.Step | frontend/src/utils/avatar-colorize.ts:51-54 | one FNV step stays within the 32-bit range |
| AvatarColors.Fnv1a | frontend/src/utils/avatar-colorize.ts:46-56 | the reference FNV-1a hash of a string, always below 2^32 |
| AvatarColors.ShiftAddIsPrime | frontend/src/utils/avatar-colorize.ts:53 | adding the five shifted copies equals multiplying by the FNV prime 16777619 modulo 2^32 |
| AvatarColors.HashFnv32a | frontend/src/utils/avatar-colorize.ts:46-56 | the loop computes FNV-1a over the UTF-16 code units; the result lies in [0, 2^32); the empty string hashes to 2166136261 |
| AvatarColors.AvatarColor | frontend/src/utils/avatar-colorize.ts:58-62 | a colour exists iff the palette is non-empty; it is an element of the palette, the one at hash mod length |
| AvatarColors.AvatarColorDatabase | frontend/src/utils/avatar-colorize.ts:1-44 | always a colour of the 12-entry database palette, at an index in [0, 12) |
| AvatarColors.AvatarColorSchema | frontend/src/utils/avatar-colorize.ts:64-68 | always a colour of the 12-entry schema palette, at an index in [0, 12) |
| AvatarColors.AvatarColorTable | frontend/src/utils/avatar-colorize.ts:64-68 | always a colour of the 12-entry table palette, at an index in [0, 12) |
| AclDefaults.Defaulted | backend/app/app/use_case/acl/acl_dto.py:17-22 | a present ACL, including the empty one, is kept; only a NULL ACL is replaced by the default |
| AclDefaults.DatabaseAcl.PostInit | backend/app/app/use_case/acl/acl_dto.py:17-22 | the post-init hook overwrites a NULL ACL with the database default and leaves oid, name and owner alone |
| AclDefaults.DatabaseAcl.constructor | backend/app/app/use_case/acl/acl_dto.py:10-22 | a constructed record holds the given fields and, after the hook, the catalogue ACL or the default |
| AclDefaults.SchemaAcl.PostInit | backend/app/app/use_case/acl/acl_dto.py:32-34 | a NULL ACL becomes the schema default; the other fields are kept |
| AclDefaults.SchemaAcl.constructor | backend/app/app/use_case/acl/acl_dto.py:25-34 | the given fields, and the ACL after the hook |
| AclDefaults.TableAcl.PostInit | backend/app/app/use_case/acl/acl_dto.py:45-47 | a NULL ACL becomes the table default; the other fields are kept |
| AclDefaults.TableAcl.constructor | backend/app/app/use_case/acl/acl_dto.py:37-47 | the given fields, and the ACL after the hook |
| AclDefaults.OwnerRule | backend/app/app/use_case/acl/acl_dto.py:20 | an owner rule `"owner"=letters/"owner"` reads back as the owner holding those privileges from itself |
| AclDefaults.PublicRule | backend/app/app/use_case/acl/acl_dto.py:21 | `=Tc/"owner"` reads back as PUBLIC (the empty grantee) holding TEMPORARY and CONNECT, granted by the owner |
| AclDefaults.DatabaseDefaultDecodes | backend/app/app/use_case/acl/acl_dto.py:19-22 | the database default decodes to the owner with CREATE, TEMPORARY and CONNECT and to PUBLIC with TEMPORARY and CONNECT |
| AclDefaults.SchemaDefaultDecodes | backend/app/app/use_case/acl/acl_dto.py:32-34 | the schema default decodes to the owner with USAGE and CREATE |
| AclDefaults.TableLetters | backend/app/app/use_case/acl/acl_dto.py:47 | the seven table privileges encode to the letters `arwdDxt` |
| AclDefaults.TableDefaultDecodes | backend/app/app/use_case/acl/acl_dto.py:45-47 | the table default decodes to the owner with all seven table privileges |
| AclCodec.InverseTable | backend/app/app/use_case/privilege/privilege_privilege.py:8-26 | the name-to-letter table and its inverse undo each other in both directions |
| AclCodec.NamesRoundTrip | backend/app/app/use_case/privilege/privilege_privilege.py:8-26 | the letter of every name maps back to that name |
| AclCodec.LettersRoundTrip | backend/app/app/use_case/privilege/privilege_privilege.py:8-26 | every letter names a privilege whose letter it is |
| AclCodec.NamedPrivilegeLetter | backend/app/app/use_case/privilege/privilege_privilege.py:8-26 | every privilege but ALL has one letter, which is neither `*` nor a separator |
| AclCodec.DecodeAcl | backend/app/app/use_case/privilege/privilege_privilege.py:29-33 | succeeds iff every letter is in the table, giving its name letter by letter; otherwise FailedToParseACLSymbols with the letters given |
| AclCodec.EncodeAcl | backend/app/app/use_case/privilege/privilege_privilege.py:36-40 | succeeds iff every name is in the table, giving its letter name by name; otherwise FailedToParseTextPrivileges with the names given |
| AclCodec.DecodeAppend | backend/app/app/use_case/privilege/privilege_privilege.py:29-33 | decoding distributes over concatenation |
| AclCodec.EncodeAppend | backend/app/app/use_case/privilege/privilege_privilege.py:36-40 | encoding distributes over concatenation |
| AclCodec.DecodeEncode | backend/app/app/use_case/privilege/privilege_privilege.py:29-40 | decoding what was encoded gives the names back |
| AclCodec.RunLength | backend/app/app/use_case/privilege/privilege_privilege.py:44 | the longest separator-free prefix: what precedes it has no separator, and what follows starts with one |
| AclCodec.Tokens | backend/app/app/use_case/privilege/privilege_privilege.py:44 | every token of `[^=/"]+` is non-empty and free of `=`, `/` and `"` |
| AclCodec.TokensKeepEverythingElse | backend/app/app/use_case/privilege/privilege_privilege.py:44 | the tokens, concatenated, are exactly the input without its separators, none lost and in order |
| AclCodec.TokensSkip | backend/app/app/use_case/privilege/privilege_privilege.py:44 | separators in front of a text do not change its tokens |
| AclCodec.TokensWord | backend/app/app/use_case/privilege/privilege_privilege.py:44 | a separator-free word followed by a separator or the end is exactly one token |
| AclCodec.GoLetters | backend/app/app/use_case/privilege/privilege_privilege.py:63 | the letters followed by `*` are one-character strings, no more of them than the text has characters |
| AclCodec.PlainLetters | backend/app/app/use_case/privilege/privilege_privilege.py:64 | the letters not followed by `*` are one-character strings, no more of them than the text has characters |
| AclCodec.StarredLine | backend/app/app/use_case/privilege/privilege_privilege.py:63-64 | a section of `letter*` pairs has no plain letters and gives back exactly its grant-option letters |
| AclCodec.PlainLine | backend/app/app/use_case/privilege/privilege_privilege.py:63-64 | plain letters in front of a section are read as plain letters, in order, and add no grant-option letter |
| AclCodec.LettersCons | backend/app/app/use_case/privilege/privilege_privilege.py:63-64 | a letter that no `*` follows is a plain letter |
| AclCodec.LineLetters | backend/app/app/use_case/privilege/privilege_privilege.py:63-64 | the section the encoder writes (plain letters, then `letter*` pairs) reads back as both lists, in order; it is empty iff both are |
| AclCodec.ParseLight | backend/app/app/use_case/privilege/privilege_privilege.py:43-65 | succeeds iff there are 3 tokens, 2 tokens, or 1 token with `=/` (so a bare name fails); the grantor is the last token, and the grantee the first of three; grantee and grantor carry no separators; otherwise FailedToParseACLRule with the rule |
| AclCodec.ParseOne | backend/app/app/use_case/privilege/privilege_privilege.py:68-76 | keeps the split's grantee and grantor and yields only named privileges; every error is a parse failure |
| AclCodec.Compile | backend/app/app/use_case/privilege/privilege_privilege.py:79-84 | succeeds iff both lists contain only names in the table; otherwise the error names the first list that fails |
| AclCodec.RuleTextTokens | backend/app/app/use_case/privilege/privilege_privilege.py:79-84 | the text the encoder writes splits into grantee, letters and grantor, the first two only when non-empty |
| AclCodec.RuleTextEmptyLine | backend/app/app/use_case/privilege/privilege_privilege.py:46 | the written rule contains `=/` exactly when its letter section is empty |
| AclCodec.ParseRuleText | backend/app/app/use_case/privilege/privilege_privilege.py:43-84 | splitting the written text gives back grantee, grantor and both letter lists |
| AclCodec.RoundTrip | backend/app/app/use_case/privilege/privilege_privilege.py:43-84 | for named privileges and separator-free names with a non-empty grantor, parsing the compiled rule gives the rule back |
| AclCodec.ParseBatch | backend/app/app/use_case/privilege/privilege_privilege.py:120-122 | succeeds iff every rule parses, giving one decoded rule per input, in order; otherwise the error of the first rule that fails |
| AclCodec.BatchFailure | backend/app/app/use_case/privilege/privilege_privilege.py:120-122 | a batch fails only with a parse failure |
| AclCodec.ParseBatchStops | backend/app/app/use_case/privilege/privilege_privilege.py:120-122 | the batch stops at the first rule that fails, with that rule's error |
| AclCodec.Merge | backend/app/app/use_case/privilege/privilege_privilege.py:101-108 | the entry after a merge counts at least one rule |
| AclCodec.Insert | backend/app/app/use_case/privilege/privilege_privilege.py:101-108 | one step of the fold keeps the table well formed: keys distinct, and exactly the grantees with entries |
| AclCodec.Fold | backend/app/app/use_case/privilege/privilege_privilege.py:87-108 | the folded table is well formed |
| AclCodec.Summaries | backend/app/app/use_case/privilege/privilege_privilege.py:111-117 | one result per recorded grantee |
| AclCodec.FoldSnoc | backend/app/app/use_case/privilege/privilege_privilege.py:98-108 | folding one more rule is one more insert |
| AclCodec.CountPositive | backend/app/app/use_case/privilege/privilege_privilege.py:101-108 | a grantee's rule count is positive iff some rule mentions it |
| AclCodec.MergeSets | backend/app/app/use_case/privilege/privilege_privilege.py:101-108 | the set algebra of one merge: grant-option privileges are the union, and plain ones the union less the grant-option ones |
| AclCodec.FoldEntry | backend/app/app/use_case/privilege/privilege_privilege.py:87-108 | after the fold, each grantee's entry holds its rules' count, the union of what they grant (grant option winning) or, for a single rule, that rule's lists |
| AclCodec.FoldMember | backend/app/app/use_case/privilege/privilege_privilege.py:87-108 | a grantee has an entry iff some rule mentions it |
| AclCodec.FoldOrder | backend/app/app/use_case/privilege/privilege_privilege.py:87-108 | grantees are recorded in the order of their first rule |
| AclCodec.AggregateGrantees | backend/app/app/use_case/privilege/privilege_privilege.py:87-117 | every grantee appears once among the results, in order of first appearance, and only grantees that some rule mentions appear |
| AclCodec.AggregateMerges | backend/app/app/use_case/privilege/privilege_privilege.py:101-117 | the count field equals the grantee's number of rules; a single rule keeps its lists; two or more give grant-option = the union of grant-option privileges and plain = the union of plain ones minus that, both duplicate-free |
| AclCodec.ParseBatchFinal | backend/app/app/use_case/privilege/privilege_privilege.py:87-117 | the in-place loop returns the first parse error, or the aggregation of the decoded rules |
| AclCodec.ParseAclRules | backend/app/app/use_case/privilege/privilege_privilege.py:125-128 | succeeds iff the batch parses; it returns the decoded rules one per input with final off, or their aggregation with final on |
| DefaultPrivileges.EntryLetter | backend/app/app/use_case/privilege_graph/privilege_graph_default.py:11-17 | a letter exists exactly for the five entry types |
| DefaultPrivileges.ObjtypeName | backend/app/app/use_case/privilege_graph/privilege_graph_default.py:19-21 | a decoded letter always names an entry type |
| DefaultPrivileges.LettersBijective | backend/app/app/use_case/privilege_graph/privilege_graph_default.py:11-21 | the forward and inverse maps agree in both directions |
| DefaultPrivileges.ObjtypeUnknown | backend/app/app/use_case/privilege_graph/privilege_graph_default.py:94 | `.get` gives None exactly for a letter outside r, S, f, T, n |
| DefaultPrivileges.EntryToObject | backend/app/app/use_case/privilege_graph/privilege_graph_default.py:23-29 | succeeds iff the tag is one of the five entry types, giving one of TABLES, SEQUENCES, FUNCTIONS, TYPES, SCHEMAS; otherwise TypeNotImplemented(tag) |
| DefaultPrivileges.EntryToObjectInjective | backend/app/app/use_case/privilege_graph/privilege_graph_default.py:23-29 | distinct entry types give distinct keywords |
| DefaultPrivileges.SchemaPath | backend/app/app/use_case/privilege_graph/privilege_graph_default.py:76 | `IN SCHEMA "s"` when the schema is truthy, and the empty string exactly otherwise |
| DefaultPrivileges.RevokeDefaultsStatement | backend/app/app/use_case/privilege_graph/privilege_graph_default.py:51-80 | fails iff the entry type is unknown, with TypeNotImplemented; otherwise a REVOKE ALL for the target role from the grantee, on the entry's keyword, with the schema path |
| DefaultPrivileges.RevokeAllDefaultPermissions | backend/app/app/use_case/privilege_graph/privilege_graph_default.py:83-85 | the procedure leaves exactly its run in the trace and returns its outcome |
| DefaultPrivileges.RevokeAllDefaultsStatements | backend/app/app/use_case/privilege_graph/privilege_graph_default.py:63-85 | an unknown entry type issues no statement and raises TypeNotImplemented; a known one issues exactly one REVOKE ALL, which succeeds iff its slot does not fail |
| DefaultPrivileges.DecodeRow | backend/app/app/use_case/privilege_graph/privilege_graph_default.py:88-97 | a row decodes iff its ACL parses, one rule per entry in order, with the schema kept and the objtype read through `.get` |
| DefaultPrivileges.DefaultPermissionsOf | backend/app/app/use_case/privilege_graph/privilege_graph_default.py:88-97 | one record per row, in row order, iff every row decodes; otherwise the error of the first row that fails, a parse failure |
| Digraphs.Graph.constructor | backend/app/app/use_case/privilege_graph/privilege_graph_privilege.py:33-34 | a new graph has no vertices |
| Digraphs.Graph.AddVertex | backend/app/app/use_case/privilege_graph/privilege_graph_privilege.py:36-38 | a new vertex gets an empty list and goes last; an existing list is never overwritten; the TypeScript addVertex (frontend/src/utils/reachable-nodes.ts, lines 10-14) behaves the same |
| Digraphs.Graph.AddEdge | backend/app/app/use_case/privilege_graph/privilege_graph_privilege.py:40-43 | u, then v, join the vertex list, each only if it was not yet a vertex; v is appended to u's list once per call (duplicates kept); every other list is unchanged; the TypeScript addEdge (frontend/src/utils/reachable-nodes.ts, lines 16-20) behaves the same |
| Digraphs.Graph.ChildsList | backend/app/app/use_case/privilege_graph/privilege_graph_privilege.py:54-55 | one list per vertex and nothing else, every child itself a key; the TypeScript childsList (frontend/src/utils/reachable-nodes.ts, lines 33-35) behaves the same |
| Digraphs.WithEdge | backend/app/app/use_case/privilege_graph/privilege_graph_privilege.py:40-43 | the lists after one edge: vertices are the old ones plus both ends, u's list gains v last, and the rest are kept |
| Digraphs.EdgeListVertices | backend/app/app/use_case/privilege_graph/privilege_graph_privilege.py:128-130 | the graph built from an edge list has exactly the edges' ends as vertices |
| Digraphs.EdgeListTargets | backend/app/app/use_case/privilege_graph/privilege_graph_privilege.py:128-130 | each vertex's list is exactly the heads of its edges, in list order with repeats |
| Digraphs.TargetsHaveEdge | backend/app/app/use_case/privilege_graph/privilege_graph_privilege.py:128-130 | the head of every edge is listed under its tail |
| Digraphs.NoEdgesNoTargets | backend/app/app/use_case/privilege_graph/privilege_graph_privilege.py:128-130 | a vertex on no edge has no children |
| Digraphs.Graph.DfsVisit | backend/app/app/use_case/privilege_graph/privilege_graph_privilege.py:45-52 | marks v and exactly the vertices it appends, appends v last without duplicates, and every appended vertex follows its children unless they lead back to it; the TypeScript dfsTopSortHelper (frontend/src/utils/reachable-nodes.ts, lines 22-31) behaves the same |
| Digraphs.Graph.TopologicalSort | backend/app/app/use_case/privilege_graph/privilege_graph_privilege.py:57-66 | every vertex exactly once, in depth-first post-order; on an acyclic graph every vertex reachable from an entry comes before it; the TypeScript dfsTopSort (frontend/src/utils/reachable-nodes.ts, lines 37-49) behaves the same |
| Digraphs.AcyclicChildrenFirst | backend/app/app/use_case/privilege_graph/privilege_graph_privilege.py:45-66 | without cycles, the post-order lists every child before its parent |
| Digraphs.AcyclicReachableFirst | backend/app/app/use_case/privilege_graph/privilege_graph_privilege.py:45-66 | without cycles, the post-order lists every vertex reachable from an entry before that entry |
| Digraphs.ReachesTrans | backend/app/app/use_case/privilege_graph/privilege_graph_privilege.py:68-79 | reachability is transitive |
| Digraphs.ReachesStep | backend/app/app/use_case/privilege_graph/privilege_graph_privilege.py:68-79 | every path leaves its start through one of its children |
| Digraphs.ReachesClosure | backend/app/app/use_case/privilege_graph/privilege_graph_privilege.py:72-77 | w is reachable from u iff it is a child of u or reachable from one; this is the recurrence the one-pass closure computes |
| Digraphs.Graph.ClosureOf | backend/app/app/use_case/privilege_graph/privilege_graph_privilege.py:71-77 | KeyError iff some child other than v has no closure yet; otherwise a duplicate-free list of vertices reachable from v, with every child and every child's closure |
| Digraphs.Graph.AllReachableNodes | backend/app/app/use_case/privilege_graph/privilege_graph_privilege.py:68-79 | on success, one duplicate-free list per vertex, of vertices reachable from it; on an acyclic graph it succeeds and each list is complete (a sink gets an empty list); the only error is KeyError; the TypeScript allReachableNodes (frontend/src/utils/reachable-nodes.ts, lines 51-66) behaves the same |
| GraphPermissions.OidIndexLast | backend/app/app/use_case/privilege_graph/privilege_graph_privilege.py:15-21 | an oid is known iff some role has it, and then the last such role names it |
| GraphPermissions.NameIndexLast | backend/app/app/use_case/privilege_graph/privilege_graph_privilege.py:15-21 | a name is known iff some role has it, and then the last such role gives its oid |
| GraphPermissions.IndexesInverse | backend/app/app/use_case/privilege_graph/privilege_graph_privilege.py:11-27 | for roles with distinct oids and names, the two dictionaries undo each other |
| GraphPermissions.RoleSearcher.constructor | backend/app/app/use_case/privilege_graph/privilege_graph_privilege.py:15-21 | the two dictionaries are filled from the given roles |
| GraphPermissions.RoleSearcher.OidToName | backend/app/app/use_case/privilege_graph/privilege_graph_privilege.py:23-24 | None iff no role has the oid, otherwise the name of the last role with it |
| GraphPermissions.RoleSearcher.NameToOid | backend/app/app/use_case/privilege_graph/privilege_graph_privilege.py:26-27 | None iff no role has the name, otherwise the oid of the last role with it |
| GraphPermissions.LevelOf | backend/app/app/use_case/privilege_graph/privilege_graph_privilege.py:84-96 | the database, schema and table levels each exactly for their truthiness pattern |
| GraphPermissions.SelectedAcls | backend/app/app/use_case/privilege_graph/privilege_graph_privilege.py:82-96 | the ACL of the selected database, schema or table; an unsupported selector contributes nothing |
| GraphPermissions.MaxLetters | backend/app/app/use_case/privilege_graph/privilege_graph_privilege.py:99-111 | a non-empty letter string with no separator and no `*`, for every level including the unsupported one |
| GraphPermissions.AdminRule | backend/app/app/use_case/privilege_graph/privilege_graph_privilege.py:99-111 | for a plain role name, the rule's three fields are the role, the level's letters and the role again |
| GraphPermissions.MaxLettersDecode | backend/app/app/use_case/privilege_graph/privilege_graph_privilege.py:99-111 | `CTc`, `UC` and `arwdDxt` decode to every privilege of their level; the `None` text of an unsupported selector fails to decode |
| GraphPermissions.NoneFails | backend/app/app/use_case/privilege_graph/privilege_graph_privilege.py:99-111 | the letters of the text `None` are rejected with FailedToParseACLSymbols |
| GraphPermissions.AdminRuleParses | backend/app/app/use_case/privilege_graph/privilege_graph_privilege.py:99-111 | a superuser rule reads back as the superuser holding every privilege of the level from itself; with no supported level it fails with FailedToParseACLSymbols |
| GraphPermissions.Superusers | backend/app/app/use_case/privilege_graph/privilege_graph_privilege.py:144-147 | no more superusers than roles |
| GraphPermissions.SuperusersExactly | backend/app/app/use_case/privilege_graph/privilege_graph_privilege.py:144-147 | a name is listed iff some superuser has it |
| GraphPermissions.AdminRules | backend/app/app/use_case/privilege_graph/privilege_graph_privilege.py:144-147 | one rule per superuser, in role order, and none for any other role |
| GraphPermissions.ChangePrivilegeRoles | backend/app/app/use_case/privilege_graph/privilege_graph_privilege.py:114-122 | the copy exists iff every privilege has a letter |
| GraphPermissions.ChangedRolesParse | backend/app/app/use_case/privilege_graph/privilege_graph_privilege.py:114-122 | the copy reads back with the same privileges on both lists and only grantee and grantor replaced |
| GraphPermissions.PublicRules | backend/app/app/use_case/privilege_graph/privilege_graph_privilege.py:135-141 | one copy per role, in role order, each to that role from the rule's own grantor |
| GraphPermissions.ChildRules | backend/app/app/use_case/privilege_graph/privilege_graph_privilege.py:167-173 | one copy per member, in order, each to the member from the rule's grantee |
| GraphPermissions.RulesFor | backend/app/app/use_case/privilege_graph/privilege_graph_privilege.py:158-173 | one rule's contribution exists iff the rule parses, and otherwise fails with that rule's error |
| GraphPermissions.Projection | backend/app/app/use_case/privilege_graph/privilege_graph_privilege.py:158-173 | succeeds iff every raw rule parses; otherwise the error of the first that fails |
| GraphPermissions.ProjectionFailure | backend/app/app/use_case/privilege_graph/privilege_graph_privilege.py:158-173 | the projection fails only with a parse failure |
| GraphPermissions.PublicRuleCopies | backend/app/app/use_case/privilege_graph/privilege_graph_privilege.py:160-165 | a PUBLIC rule contributes itself, then one copy per role reading back as the same privileges to that role from the same grantor |
| GraphPermissions.MemberRuleCopies | backend/app/app/use_case/privilege_graph/privilege_graph_privilege.py:167-173 | a role's rule contributes itself, then one copy per transitive member reading back as the same privileges to the member from that role |
| GraphPermissions.EdgePairs | backend/app/app/use_case/privilege_graph/privilege_graph_privilege.py:128-130 | each membership edge becomes the pair (group role, member), in order |
| GraphPermissions.ReachableRoles | backend/app/app/use_case/privilege_graph/privilege_graph_privilege.py:125-132 | on success, the reach table of the membership graph; KeyError only when the graph has a cycle |
| GraphPermissions.AppendMemberRules | backend/app/app/use_case/privilege_graph/privilege_graph_privilege.py:169-173 | the inner loop appends exactly the member copies, in order |
| GraphPermissions.ProjectOne | backend/app/app/use_case/privilege_graph/privilege_graph_privilege.py:158-173 | one pass of the loop computes exactly that rule's contribution |
| GraphPermissions.CollectPermissions | backend/app/app/use_case/privilege_graph/privilege_graph_privilege.py:150-173 | the superuser rules, then each raw rule's contribution in order; it fails exactly when the projection fails, with its error |
| GraphPermissions.GetAllGraphPermissions | backend/app/app/use_case/privilege_graph/privilege_graph_privilege.py:150-175 | success is the aggregation of all collected rules; KeyError only on a membership cycle; every other error is a parse failure, and is the error of the first raw rule that fails to parse or else of the first collected rule that fails, so an acyclic graph whose rules all parse succeeds |
| GrantCommon.Checked | backend/app/app/use_case/privilege/privilege_grant_table.py:13-29 | exactly the keywords whose flag has the wanted value, in table order, each once when the table has no repeats |
| GrantCommon.OptionsPartition | backend/app/app/use_case/privilege/privilege_grant_table.py:13-51 | without all, the grant and revoke lists are disjoint, together cover the table, and hold each keyword once |
| GrantCommon.CheckedAt | backend/app/app/use_case/privilege/privilege_grant_table.py:13-51 | a keyword is listed iff its own flag says so |
| GrantCommon.NothingChecked | backend/app/app/use_case/privilege/privilege_grant_table.py:13-29 | nothing is listed as checked exactly when no flag is set |
| GrantCommon.IssuedIf | backend/app/app/use_case/privilege/privilege_grant_table.py:65-66 | a helper issues nothing iff its keyword list is empty, and otherwise its one statement |
| GrantCommon.GrantorParam | backend/app/app/use_case/privilege/privilege_grant_table.py:342-360 | the quoted grantor when it is truthy, otherwise NONE |
| GrantCommon.GrantOptionParam | backend/app/app/use_case/privilege/privilege_grant_table.py:174-207 | `WITH GRANT OPTION` exactly when the flag is set, otherwise empty |
| GrantCommon.GrantorsOf | backend/app/app/use_case/privilege/privilege_grant_table.py:369-373 | a grantor is listed iff some rule for the role has it |
| GrantCommon.GrantorsOfAppend | backend/app/app/use_case/privilege/privilege_grant_table.py:369-373 | filtering keeps rule order across concatenation |
| GrantCommon.Grantors | backend/app/app/use_case/privilege/privilege_grant_table.py:369-373 | succeeds iff every rule of the ACL parses; the grantors are those of the non-aggregated rules for role_specification, all non-empty; otherwise the error of the first failing rule |
| GrantCommon.Impersonations | backend/app/app/use_case/privilege/privilege_grant_table.py:401-404 | one impersonated revoke per grantor, in order |
| GrantCommon.DeepGrantors | backend/app/app/use_case/privilege/privilege_grant_table.py:396-398 | no grantors with deep revoke off, and the ACL's grantors with it on |
| GrantCommon.RevokeThenGrant | backend/app/app/use_case/privilege/privilege_grant_table.py:400-413 | the loop and the grant leave exactly their run in the trace and return its outcome |
| GrantCommon.DeepGrant | backend/app/app/use_case/privilege/privilege_grant_table.py:392-413 | grant_on_* leaves exactly its run in the trace and returns its outcome |
| GrantCommon.RevokeThenGrantOutcome | backend/app/app/use_case/privilege/privilege_grant_table.py:400-413 | DoneWithErrors exactly when the grant committed and some impersonation failed; Done exactly when the grant committed and none failed; such an error is raised only after the commit |
| GrantCommon.RevokeThenGrantStatements | backend/app/app/use_case/privilege/privilege_grant_table.py:400-410 | when the grant commits, the statements are one impersonation per grantor, whatever their fate, then the grant |
| GrantCommon.DeepGrantOutcome | backend/app/app/use_case/privilege/privilege_grant_table.py:392-413 | DoneWithErrors(name) iff the reset revoke, the ACL and the grant all went through and some impersonation failed; every other error is a database error or a parse failure |
| GrantCommon.UserSchemas | backend/app/app/use_case/privilege/privilege_grant_table.py:74-79 | exactly the namespaces other than information_schema and those starting pg_ or gp_ |
| GrantCommon.UserSchemaExamples | backend/app/app/use_case/privilege/privilege_grant_table.py:74-79 | information_schema, pg_catalog and gp_toolkit are excluded; public is kept |
| GrantCommon.DeepGrantStops | backend/app/app/use_case/privilege/privilege_grant_table.py:392-398 | a failed reset revoke or an unparsable ACL leaves only the reset revoke executed |
| GrantCommon.DeepGrantStatements | backend/app/app/use_case/privilege/privilege_grant_table.py:392-410 | otherwise, and when the grant commits: the reset revoke, one impersonation per grantor, then the grant, in that order |
| DatabaseGrants.RevokeOptions | backend/app/app/use_case/privilege/privilege_grant_database.py:28-43 | with all, every keyword |
| DatabaseGrants.GrantOptions | backend/app/app/use_case/privilege/privilege_grant_database.py:13-25 | the checked keywords, in table order and each once; nothing exactly when no box is checked |
| DatabaseGrants.RevokeDatabaseAs | backend/app/app/use_case/privilege/privilege_grant_database.py:79-111 | the revoke of all three privileges on the database from the role, as the quoted grantor when it is truthy and NONE otherwise |
| DatabaseGrants.OptionsExact | backend/app/app/use_case/privilege/privilege_grant_database.py:13-43 | grant holds exactly the checked and revoke (without all) exactly the unchecked of CREATE, CONNECT, TEMPORARY, in table order; the two are disjoint and cover the table |
| DatabaseGrants.GrantDatabaseIssues | backend/app/app/use_case/privilege/privilege_grant_database.py:46-76 | nothing iff no box is checked; otherwise exactly one statement, a GRANT on the database to the role with the checked keywords and the grant-option clause |
| DatabaseGrants.RevokeDatabaseIssues | backend/app/app/use_case/privilege/privilege_grant_database.py:79-111 | a revoke always revokes all three privileges, as NONE or as the quoted grantor, so it always issues one statement |
| DatabaseGrants.GrantOnDatabase | backend/app/app/use_case/privilege/privilege_grant_database.py:121-142 | grant_on_database is the deep-grant run with the database revoke, its grant and its ACL |
| DatabaseGrants.NothingCheckedOnlyRevokes | backend/app/app/use_case/privilege/privilege_grant_database.py:121-142 | with no box checked, only the reset revoke and the deep revokes run |
| SchemaGrants.RevokeOptions | backend/app/app/use_case/privilege/privilege_grant_schema.py:28-42 | with all, both keywords |
| SchemaGrants.GrantOptions | backend/app/app/use_case/privilege/privilege_grant_schema.py:14-25 | the checked keywords, in table order and each once; nothing exactly when no box is checked |
| SchemaGrants.RevokeSchemaAs | backend/app/app/use_case/privilege/privilege_grant_schema.py:167-199 | the revoke of both privileges on the schema from the role, as the quoted grantor when it is truthy and NONE otherwise |
| SchemaGrants.OptionsExact | backend/app/app/use_case/privilege/privilege_grant_schema.py:14-42 | grant exactly the checked and revoke (without all) exactly the unchecked of CREATE, USAGE, in table order; disjoint, covering |
| SchemaGrants.GrantSchemasInDatabaseIssues | backend/app/app/use_case/privilege/privilege_grant_schema.py:45-86 | nothing iff no box is checked; otherwise exactly one statement, a GRANT on every user schema to the role with the checked keywords and the grant-option clause |
| SchemaGrants.RevokeSchemasInDatabaseIssues | backend/app/app/use_case/privilege/privilege_grant_schema.py:122-164 | nothing iff every box is checked; otherwise exactly one statement, a REVOKE on every user schema from the role with the unchecked keywords |
| SchemaGrants.GrantSchemaIssues | backend/app/app/use_case/privilege/privilege_grant_schema.py:89-119 | nothing iff no box is checked; otherwise exactly one statement, a GRANT on the schema to the role with the checked keywords and the grant-option clause |
| SchemaGrants.RevokeSchemaIssues | backend/app/app/use_case/privilege/privilege_grant_schema.py:167-199 | always one statement revoking both privileges, as NONE or as the quoted grantor |
| SchemaGrants.GrantAllSchemasInDatabase | backend/app/app/use_case/privilege/privilege_grant_schema.py:209-212 | one transaction with the revoke of the unchecked and the grant of the checked privileges, and no deep revoke |
| SchemaGrants.GrantOnSchema | backend/app/app/use_case/privilege/privilege_grant_schema.py:215-236 | grant_on_schema is the deep-grant run with the schema revoke, its grant and its ACL |
| TableGrants.RevokeOptions | backend/app/app/use_case/privilege/privilege_grant_table.py:32-51 | with all, all seven keywords |
| TableGrants.GrantOptions | backend/app/app/use_case/privilege/privilege_grant_table.py:13-29 | the checked keywords, in table order and each once; nothing exactly when no box is checked |
| TableGrants.RevokeTableAs | backend/app/app/use_case/privilege/privilege_grant_table.py:332-366 | the revoke of all seven privileges on the table from the role, as the quoted grantor when it is truthy and NONE otherwise |
| TableGrants.KeywordsDistinct | backend/app/app/use_case/privilege/privilege_grant_table.py:13-29 | the seven keywords are distinct |
| TableGrants.GrantOptionsExact | backend/app/app/use_case/privilege/privilege_grant_table.py:13-29 | a keyword is granted iff its flag is set |
| TableGrants.RevokeOptionsExact | backend/app/app/use_case/privilege/privilege_grant_table.py:32-51 | without all, a keyword is revoked iff its flag is clear |
| TableGrants.OptionsSplit | backend/app/app/use_case/privilege/privilege_grant_table.py:13-51 | without all, grant and revoke lists are duplicate-free, disjoint and together cover the seven keywords |
| TableGrants.GrantOptionsByName | backend/app/app/use_case/privilege/privilege_grant_table.py:13-29 | each of SELECT, INSERT, UPDATE, DELETE, TRUNCATE, REFERENCES, TRIGGER is granted iff its own flag is set |
| TableGrants.GrantTablesInDatabaseIssues | backend/app/app/use_case/privilege/privilege_grant_table.py:54-97 | nothing iff no box is checked; otherwise exactly one statement, a GRANT on all tables in every user schema to the role with the checked keywords and the grant-option clause |
| TableGrants.RevokeTablesInDatabaseIssues | backend/app/app/use_case/privilege/privilege_grant_table.py:209-254 | nothing iff every box is checked; otherwise exactly one statement, a REVOKE on all tables in every user schema from the role with the unchecked keywords |
| TableGrants.GrantTablesInSchemaIssues | backend/app/app/use_case/privilege/privilege_grant_table.py:100-132 | nothing iff no box is checked; otherwise exactly one statement, a GRANT on all tables in the schema to the role with the checked keywords and the grant-option clause |
| TableGrants.RevokeTablesInSchemaIssues | backend/app/app/use_case/privilege/privilege_grant_table.py:256-289 | nothing iff every box is checked; otherwise exactly one statement, a REVOKE on all tables in the schema from the role with the unchecked keywords |
| TableGrants.GrantTablesInSchemaDefaultIssues | backend/app/app/use_case/privilege/privilege_grant_table.py:134-172 | nothing iff no box is checked; otherwise exactly one statement, an ALTER DEFAULT PRIVILEGES grant in the schema to the role with the checked keywords and the grant-option clause |
| TableGrants.RevokeTablesInSchemaDefaultIssues | backend/app/app/use_case/privilege/privilege_grant_table.py:291-330 | nothing iff every box is checked; otherwise exactly one statement, an ALTER DEFAULT PRIVILEGES revoke in the schema from the role with the unchecked keywords |
| TableGrants.GrantTableIssues | backend/app/app/use_case/privilege/privilege_grant_table.py:174-207 | nothing iff no box is checked; otherwise exactly one statement, a GRANT on the table to the role with the checked keywords and the grant-option clause |
| TableGrants.RevokeTableIssues | backend/app/app/use_case/privilege/privilege_grant_table.py:332-366 | always one statement revoking all seven privileges, as NONE or as the quoted grantor |
| TableGrants.GrantAllTablesInDatabase | backend/app/app/use_case/privilege/privilege_grant_table.py:376-379 | one transaction with the revoke of the unchecked and the grant of the checked privileges |
| TableGrants.GrantAllTablesInSchema | backend/app/app/use_case/privilege/privilege_grant_table.py:382-389 | the tables' transaction, then the default privileges' transaction; a failure in the first skips the second |
| TableGrants.GrantOnTable | backend/app/app/use_case/privilege/privilege_grant_table.py:392-413 | grant_on_table is the deep-grant run with the table revoke, its grant and its ACL |
| Session.StatementsAppend | backend/app/app/use_case/privilege/privilege_grant_table.py:392-413 | the statements of consecutive pieces of trace are those of each piece, in order |
| Session.TxnEvents | backend/app/app/use_case/owner/owner_owner.py:68-69 | one statement in `with conn.begin()`: begin, the statement, then commit when it succeeds and rollback when it fails |
| Session.TransactionAttempts | backend/app/app/use_case/privilege/privilege_grant_table.py:376-379 | a transaction commits iff none of its statements fails; it then ran them all, and otherwise those up to and including the first failure |
| Session.PairTransaction | backend/app/app/use_case/role/role_role.py:229-232 | a two-statement transaction runs the second only after the first succeeded, and commits iff both do |
| Session.SingleTransaction | backend/app/app/use_case/role/role_role.py:235-237 | a one-statement transaction is begin, statement, commit or rollback |
| Session.InTransaction | backend/app/app/use_case/role/role_member.py:115-117 | one statement in its own `with conn.begin()`: committed exactly when it succeeds |
| Session.Transaction | backend/app/app/use_case/privilege/privilege_grant_table.py:376-379 | runs a transaction and leaves exactly its events; reports whether it committed |
| Session.TwoTransactions | backend/app/app/use_case/privilege/privilege_grant_table.py:382-389 | two transactions in sequence, a failure in the first propagating |
| Session.TwoTransactionsStatements | backend/app/app/use_case/privilege/privilege_grant_table.py:382-389 | when both commit, all of the first then all of the second; when the first fails, none of the second |
| Session.SweepAttemptsAll | backend/app/app/use_case/privilege/privilege_grant_table.py:400-407 | the loop of per-grantor transactions attempts every statement in order, whatever fails |
| Session.Sweep | backend/app/app/use_case/privilege/privilege_grant_table.py:400-407 | the loop leaves one transaction per statement and reports whether any failed |
| Session.TolerantAttemptsAll | backend/app/app/use_case/resource/resource_resource.py:144-155 | an autocommit loop attempts every statement in order, whatever fails |
| Session.ExecuteTolerant | backend/app/app/use_case/resource/resource_resource.py:183-193 | the loop leaves one execution per statement and reports whether any failed |
| Session.RunSteps | backend/app/app/use_case/resource/resource_resource.py:303-312 | the steps of a resource-group procedure leave exactly their run and return its outcome |
| Session.StepsDoneIff | backend/app/app/use_case/resource/resource_resource.py:303-312 | a procedure raises nothing exactly when none of its statements fails |
| Session.StepsDoneStatements | backend/app/app/use_case/resource/resource_resource.py:303-312 | a procedure that raised nothing attempted every statement of every step, in order |
| Session.StepsRaisedError | backend/app/app/use_case/resource/resource_resource.py:303-312 | a procedure that raised, raised the error of one of its steps |
| Session.StepsStop | backend/app/app/use_case/resource/resource_resource.py:303-312 | an exception in a step skips the later ones: the procedure attempted the statements up to that step's, and no more |
| ResourceGroups.NatTextRoundTrip | backend/app/app/use_case/resource/resource_resource.py:76-90 | decimal text of a natural number reads back as that number |
| ResourceGroups.IntTextRoundTrip | backend/app/app/use_case/resource/resource_resource.py:76-90 | str(n), including a leading minus, reads back as n |
| ResourceGroups.SettingReadsBack | backend/app/app/use_case/resource/resource_resource.py:76-107 | an option reads back as its key and its value |
| ResourceGroups.CreateOptions | backend/app/app/use_case/resource/resource_resource.py:76-90 | always three options |
| ResourceGroups.AlterOptions | backend/app/app/use_case/resource/resource_resource.py:93-107 | always three options |
| ResourceGroups.CreateOptionsReadBack | backend/app/app/use_case/resource/resource_resource.py:76-90 | `KEY=value` for CPU_RATE_LIMIT, MEMORY_LIMIT and CONCURRENCY, in that order, each with its own value |
| ResourceGroups.AlterOptionsReadBack | backend/app/app/use_case/resource/resource_resource.py:93-107 | the same keys and values in `KEY value` form, in the same order |
| ResourceGroups.CreateAlterAgree | backend/app/app/use_case/resource/resource_resource.py:76-107 | the create and alter options differ only in the separator |
| ResourceGroups.JoinThree | backend/app/app/use_case/resource/resource_resource.py:129 | joining three options puts the separator between them |
| ResourceGroups.CreateStatement | backend/app/app/use_case/resource/resource_resource.py:110-132 | the create statement names the group and carries its three create options joined by `, ` |
| ResourceGroups.Null2List | backend/app/app/use_case/resource/resource_dto.py:5-9 | [None] becomes []; every other list, including [] and ones with several None, is kept; the result is never [None] |
| ResourceGroups.Null2ListKeepsNames | backend/app/app/use_case/resource/resource_dto.py:5-9 | a list of role names is kept unchanged |
| ResourceGroups.NewResourceGroup | backend/app/app/use_case/resource/resource_dto.py:17-24 | a constructed group never holds [None] as members; every other field, and any other list, is kept |
| ResourceGroups.MemberDiff | backend/app/app/use_case/resource/resource_resource.py:271-279 | removed = current − desired and appended = desired − current, each duplicate-free |
| ResourceGroups.MemberDiffSound | backend/app/app/use_case/resource/resource_resource.py:271-279 | nobody is both removed and appended, and applying both gives the desired members |
| ResourceGroups.MemberDiffExample | backend/app/app/use_case/resource/resource_resource.py:271-279 | {a,b,c} against {b,c,d} removes {a} and appends {d} |
| ResourceGroups.GroupTarget | backend/app/app/use_case/resource/resource_resource.py:151 | the quoted group when given, and NONE exactly otherwise |
| ResourceGroups.MemberStatements | backend/app/app/use_case/resource/resource_resource.py:145-153 | one ALTER ROLE per member, all to the same target, in order |
| ResourceGroups.OptionStatements | backend/app/app/use_case/resource/resource_resource.py:176-191 | one ALTER RESOURCE GROUP per option, always three |
| ResourceGroups.DropResourceGroupProc | backend/app/app/use_case/resource/resource_resource.py:288-293 | drop_resource_group leaves exactly its run and returns its outcome |
| ResourceGroups.DropOrder | backend/app/app/use_case/resource/resource_resource.py:288-293 | detach all members, terminate the sessions, drop the group, in that order, stopping at the first failure with a database error |
| ResourceGroups.SinglesOrder | backend/app/app/use_case/resource/resource_resource.py:288-293 | three statements outside any loop run in order and stop at the first failure |
| ResourceGroups.EnsureResourceGroup | backend/app/app/use_case/resource/resource_resource.py:296-300 | ensure_resource_group leaves exactly its run and returns its outcome |
| ResourceGroups.EnsureStatements | backend/app/app/use_case/resource/resource_resource.py:296-300 | a failed create stops it; otherwise every member is attached to the new group, and DoneWithErrors(group) is raised iff an attach failed |
| ResourceGroups.UpdateResourceGroup | backend/app/app/use_case/resource/resource_resource.py:303-312 | update_resource_group takes the diff first, then leaves exactly its run and returns its outcome |
| ResourceGroups.UpdateStatements | backend/app/app/use_case/resource/resource_resource.py:303-312 | without failures: the three option statements, one detach per removed member, one attach per appended member |
| ResourceGroups.UpdateStopsAfterOptions | backend/app/app/use_case/resource/resource_resource.py:176-196 | a failing option still lets the other options run, raises DoneWithErrors(group), and leaves the members untouched |
| RoleMembers.RoleLink | backend/app/app/use_case/role/role_member.py:11-19 | edges go from the group role (roleid) to the member |
| RoleMembers.GraphOfMembers | backend/app/app/use_case/role/role_member.py:104-112 | every role as a node and every membership row as an edge, in catalogue order |
| RoleMembers.MembersAreChildren | backend/app/app/use_case/role/role_member.py:11-19 | in the membership graph every member is a child of its group role |
| RoleMembers.AdminOptionFor | backend/app/app/use_case/role/role_member.py:52-67 | `ADMIN OPTION FOR` exactly when admin_option is set, otherwise empty |
| RoleMembers.WithAdminOption | backend/app/app/use_case/role/role_member.py:79-94 | `WITH ADMIN OPTION` exactly when admin_option is set, otherwise empty |
| RoleMembers.RemoveMemberFromRole | backend/app/app/use_case/role/role_member.py:115-117 | one revoke in its own transaction, without the admin-option prefix |
| RoleMembers.AppendMemberToRole | backend/app/app/use_case/role/role_member.py:120-127 | one grant in its own transaction, with the admin option iff the setting is on |
| RoleMembers.MembershipStatements | backend/app/app/use_case/role/role_member.py:115-127 | the revoke carries no admin-option prefix; the grant carries `WITH ADMIN OPTION` iff the setting is on |
| Roles.Keyword | backend/app/app/use_case/role/role_role.py:51-70 | the positive word exactly when the flag is set, otherwise its NO form |
| Roles.Keywords | backend/app/app/use_case/role/role_role.py:51-70 | one keyword per capability, in order: the positive word exactly when its flag is set, otherwise its NO form |
| Roles.KeywordsReadBack | backend/app/app/use_case/role/role_role.py:51-70 | each of the five keywords is chosen by its own flag: reading them back gives the flags |
| Roles.CreateStatement | backend/app/app/use_case/role/role_role.py:27-71 | the create targets the role's name, carries the five keywords its flags choose, and always a PASSWORD with the given password |
| Roles.PasswordClause | backend/app/app/use_case/role/role_role.py:136 | a PASSWORD clause exactly when the password is non-empty |
| Roles.AlterStatement | backend/app/app/use_case/role/role_role.py:100-138 | the alteration targets the new name, carries the five keywords its flags choose, and a PASSWORD clause only for a non-empty password |
| Roles.RenameIssues | backend/app/app/use_case/role/role_role.py:74-97 | nothing iff the name is unchanged, otherwise one rename from the old name to the new one |
| Roles.UpdateStatements | backend/app/app/use_case/role/role_role.py:229-232 | one statement when the name is kept and two otherwise: a rename from the old name first, then the alteration targeting the new name |
| Roles.UpdateOrder | backend/app/app/use_case/role/role_role.py:229-232 | the alteration comes last and targets the new name; a rename, when there is one, comes first |
| Roles.UpdateRole | backend/app/app/use_case/role/role_role.py:229-232 | update_role runs its statements in one transaction |
| Roles.UpdateCommitted | backend/app/app/use_case/role/role_role.py:229-232 | a committed update issued exactly the rename, if any, and then the alteration |
| Roles.EnsureRole | backend/app/app/use_case/role/role_role.py:235-237 | ensure_role runs the create in one transaction |
| Roles.StrategyStatements | backend/app/app/use_case/role/role_role.py:141-226 | every strategy but the dblink install ends with DROP ROLE |
| Roles.StrategyAttempt | backend/app/app/use_case/role/role_role.py:240-287 | the dblink step never reports the role deleted |
| Roles.StrategyIsTransaction | backend/app/app/use_case/role/role_role.py:240-272 | each strategy is the transaction of its statements, and reports the role deleted iff it committed |
| Roles.DeletedMeansDropped | backend/app/app/use_case/role/role_role.py:240-272 | a strategy reports the role deleted only after its whole transaction, ending with DROP ROLE, committed |
| Roles.TryStrategy | backend/app/app/use_case/role/role_role.py:240-287 | one strategy leaves exactly its attempt, and every exception is swallowed into False |
| Roles.DropRun | backend/app/app/use_case/role/role_role.py:290-305 | a drop ends either done or with DoneWithErrors(role) |
| Roles.DropRunStops | backend/app/app/use_case/role/role_role.py:298-303 | once a strategy succeeded, the later ones change nothing |
| Roles.DropWith | backend/app/app/use_case/role/role_role.py:298-305 | the loop tries the strategies in order up to the first success |
| Roles.DropRoleProc | backend/app/app/use_case/role/role_role.py:290-305 | drop_role tries direct drop, dblink install, reassign v1 and reassign v2, in that order |
| Roles.DropFailsIffAllFail | backend/app/app/use_case/role/role_role.py:290-305 | DoneWithErrors(role) exactly when every strategy, each tried after the previous ones failed, reports False |
| Roles.DirectDropWins | backend/app/app/use_case/role/role_role.py:240-249 | a direct drop that succeeds ends drop_role at once, after one DROP ROLE |
| Roles.DblinkNeverDecides | backend/app/app/use_case/role/role_role.py:275-287 | appending the dblink step to any list of strategies never changes how the drop ends |
| Roles.DblinkOffSkipped | backend/app/app/use_case/role/role_role.py:275-287 | with the dblink setting off, the dblink step anywhere in the list leaves the drop's whole run unchanged |
| Roles.DropRoleWithoutDblink | backend/app/app/use_case/role/role_role.py:275-305 | with the dblink setting off, drop_role runs exactly as direct drop, reassign v1, reassign v2 |
| Roles.FirstNamed | backend/app/app/use_case/role/role_role.py:314-320 | the position of the first row with that name, or the end when there is none |
| Roles.GetRole | backend/app/app/use_case/role/role_role.py:314-320 | a role of that name from the rows; NoSuchObject(name) exactly when no row matches |
| Roles.GetRoleUnique | backend/app/app/use_case/role/role_role.py:314-320 | with distinct names, get_role finds exactly the row of that name |

## Left out

- The SQL itself is opaque: statements are records of their template and bound parameters.
  The bodies of the PL/pgSQL `DO` blocks are not modelled, and neither is their effect on
  the server's privilege state: SET ROLE, CASCADE, dblink, REASSIGN OWNED and
  pg_terminate_backend. A decision the server makes enters the model only through the failure
  schedule.
- Catalogue reads are inputs, being queries to the server:
  - `get_database_acl`, `get_schema_acl` and `get_table_acl`;
  - the pg_roles and pg_auth_members queries;
  - `_get_all_members_of_resource_group`;
  - `get_all_roles` and `get_role_members`;
  - `get_all_resource_groups` and `get_resourse_groups_limits`.
  The row-to-record mapping between them plays no part in any property.
- Roles.DeletedMeansDropped holds because a COMMIT never fails in the model:
  `Session.Connection.Commit` always appends Committed. In role_role.py:242-248 `deleted = True`
  is set inside `with conn.begin()` before the commit. A COMMIT that raised would be swallowed
  by `finally: return deleted`, and drop_role would report the role dropped without a
  committed DROP ROLE.
- `DatabaseError` is the only exception a failing statement raises in the model. The
  drop-strategy `finally: return` swallows every exception, not only this one.
- The FastAPI routers, authentication, persistence, settings loading and connection
  management are outside the core. The three settings the core reads are parameters.
- Generators are modelled as the lists they yield. Laziness and interleaving with the
  connection are not modelled; the catalogue reads happen before the loops that use them.
- `Digraphs.Graph.AllReachableNodes` keeps duplicate-free lists with their contents as sets.
  Python's `list(set(...))` and the JavaScript `Set` fix no order the code relies on.
- `Digraphs.Graph.TopologicalSort` takes the vertices in insertion order. For a JavaScript
  object with integer-like keys, `Object.keys` lists those keys in ascending numeric order.
  The TypeScript copy is modelled over the key type, without that coercion to strings.
- Digraphs.Graph.AllReachableNodes states that a KeyError implies a cycle, but not the
  converse. A cycle through two or more vertices does make the source's closure loop raise.
- GraphPermissions.ReachableRoles inherits the same one direction: KeyError implies a cycle in
  the membership graph.
- `Digraphs.Graph.ClosureOf` uses KeyError for both copies of the lookup of a missing
  closure. In TypeScript it is a TypeError on `undefined.forEach`.
- `AclCodec.AggregateMerges` states the merged privilege lists of a grantee with two or more
  rules as duplicate-free sets. Their order comes from `list(set(...))`, which Python leaves
  unspecified.
- `AclCodec.AggregateMerges`, single rule: the lists are kept unchanged, so a single rule
  such as `r*r` holds its privilege on both lists. Only merged entries are disjoint.
- `ResourceGroups.MemberDiff` states the two lists as duplicate-free sets, because they come
  from a Python set difference.
- `AvatarColors.HashFnv32a` works on the unsigned 32-bit view of `hval`. JavaScript holds it
  as a double between steps; the `^=`, `<<` and `>>> 0` conversions make it agree modulo 2^32.
- `AvatarColors.AvatarColor` models an empty palette as no colour. In JavaScript it is
  `undefined`.
- Role names are not quoted or escaped by the model. It uses the f-string text as written.
- Frontend stores, routing, UI code and the random string generator are outside the core.
