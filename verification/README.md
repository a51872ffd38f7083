# Managed Postgres Operator: a verified model

The operator drives a PostgreSQL server to the state declared by PostgresRole, PostgresDatabase and
PostgresSchema resources, by listing what exists and sending SQL text for the differences. This
project models the three reconcilers, the statements they print, the server those statements act on,
and the finalizer protocol they share, and proves what the operator promises about them.

| File | Content |
|---|---|
| SqlText, Statements, StatementTexts | text of all sixteen statements, letter by letter, an independent scanner and parser, and the round trip |
| Resources, CustomResources | versions of a custom resource, optimistic writes, edits by users; the reconcilers' copy and its writes |
| Outside | server state, effect of each statement, effective privileges, Secrets, and the class `World` that counts calls, fails them by an arbitrary oracle, and records every text sent |
| RoleStatements | the role option printer, its text and its effect on a row |
| SetReconciliation | the list-and-send-differences loop shared by extensions, memberships and privileges |
| Extensions, Memberships, Privileges, PrivilegePasses | the three uses of that loop |
| PrivilegeShortfall | who holds what after a single pass over the privileges, exactly |
| RoleDeletion | reassign-then-drop |
| SecretData | the printed comparison of Secret data |
| RolePasses, RoleRuns, RoleIdempotence, RoleProgress, RoleProtocol, RoleReconciler | one role pass as a function, theorems over runs of passes, and the imperative reconciler proved equal to the function |
| RoleSecrets | where the password comes from and what the Secret shows, over whole passes |
| RoleFrames | what a role pass leaves alone, the order in which it changes things, and when a deletion succeeds |
| Ownership, DatabaseReconciler, SchemaReconciler | the imperative database and schema reconcilers |
| Pools | the lazily filled pool map on the heap |
| FinalizerProtocol | stale reads, lost replies, crashes and deletion, as a state machine |
| PassRuns | what a reconciler's pass does to resource and remote object, and that this is a run of the state machine |

## Reading the model

- Strings are sequences of characters standing for Go's bytes. Names, passwords and owners are assumed
  to hold no NUL; pgx removes NUL from identifiers, which is not modelled.
- The seven boolean columns of a role, and the flags of a privileges declaration, are sets of those that are true.
- Call number n fails without effect when `fails(n)`, for every oracle `fails`. A crash after some call is a pass
  whose later calls all fail, followed by the event that clears the operator's memory; so what a contract says for
  every oracle also holds after every call. `cuts(n)` says that the rows of query n may end early. Only
  FinalizerProtocol also has calls that take effect and then report an error.
- A pass may have read any version of its resource. Before write number n users have done `edits(n)` to the resource,
  arbitrarily; a write is refused unless it is based on the latest version. A stored status or finalizer
  is what these writes leave, not what the reconciler's copy says.
- One operator process; passes of one controller do not overlap. Nobody else changes roles or memberships
  (RoleRuns), and grants and memberships change only by the pass at hand (Privileges).
- The operator's own role exists and rows are filed under their names (`RolePasses.Sound`). Role names
  are not `public` or `none`, which PostgreSQL treats specially even when quoted.
- The server refuses a statement about something that does not exist or that exists already, DROP ROLE of a
  role that owns something or holds a grant, and CREATE and DROP EXTENSION in the wrong state. Other refusals
  (extension dependencies, grantor rules, circular membership, DROP SCHEMA of a non-empty schema) are
  among the faults. A database with open connections cannot be dropped. Grants are explicit: the entries PostgreSQL
  gives an owner are ordinary grants, which the model does not move when an owner changes.
- A role inherits privileges over any chain of memberships whose members have INHERIT.
- Rendering a Secret template is an unknown total function. A template for PGPASSWORD breaks the stability of the
  password, because the rendered value is read back by the next pass; the theorems say so in their conditions.
- A pool entry left by a failed open is an entry without a pool. Using it is modelled as an error of the pass.

## Where the documentation and the code differ, and where the code falls short

The model follows the code.

- docs/docs/how_to_guides/usage/configure_role_postgresrole.md:65 says that all role options are disabled by default.
  A role is created from a difference to the all-false structure (internal/postgresql/role.go:56), so PostgreSQL's default
  INHERIT stays on until a second pass (`RoleProgress.MissingRoleConverges`).
- docs/docs/reference/api/v1alpha1/index.md:35 says that preserveConnectionsOnDelete makes the operator drop
  connections; the code drops them when the flag is false (internal/controller/postgresdatabase_controller.go:172-178).
- docs/docs/reference/api/v1alpha1/index.md:32 gives the operator's role as the owner when none is declared. That
  holds for a database the operator creates; an existing one keeps its owner (`Ownership.ReconcileOnCreation`).
- Memberships of a role whose name needs quoting are never listed, hence never revoked
  (`Memberships.MembershipConverges`), because the query compares quoted text with the raw name; a name that is itself
  quoted text lists another role's groups (`Memberships.ListingOf`), and a group with a double quote in its name makes
  the pass revoke another one (`Memberships.WrongGroupRevoked`).
- A Secret template for PGPASSWORD changes the password with the next pass unless it renders to the password
  (`RoleRuns.FetchesAgainExactly`, `RoleRuns.TemplateDrifts`).
- A pass over a stale copy of a deleted resource can drop what someone else created for a new resource of that name
  (`FinalizerProtocol.StaleReadDropsForeign`, `FinalizerProtocol.DropsExactly`).
- One pass over privileges can leave a role short of what it declares when listed roles inherit from one another
  (`PrivilegeShortfall.OnePassFallsShort`); two passes always suffice (`DatabaseReconciler.TwoPassesConverge`).

## Model

| member | source | states |
|---|---|---|
| SqlText.UnquoteUndoesDoubling | internal/postgresql/role.go:165-167 | a body with doubled delimiters is read back exactly, and reading stops at its closing delimiter |
| SqlText.DoublesEach | internal/postgresql/role.go:165-167 | quoting replaces every delimiter, and nothing else, by two |
| SqlText.ScanUndoesSpaced | internal/postgresql/role.go:53-63 | scanning lexemes printed with single spaces gives back the lexemes and goes on with what follows; only a zero-length identifier is refused |
| SqlKeywords.FindsSpelling | internal/postgresql/role.go:71-163 | every printed keyword is recognised as itself among all keywords |
| Statements.ReadsBack | internal/postgresql/role.go:53-209 | every statement's text is read as exactly that statement, names, options, password and ADMIN name included, with nothing left over; refused only for a zero-length name |
| StatementTexts.CreateTexts | internal/postgresql/database.go:46-100 | the texts of CREATE DATABASE, CREATE SCHEMA and CREATE EXTENSION, letter by letter |
| StatementTexts.DropTexts | internal/postgresql/role.go:173-181 | the texts of DROP ROLE, DROP DATABASE, DROP SCHEMA and DROP EXTENSION |
| StatementTexts.OwnerTexts | internal/postgresql/database.go:64-72 | the texts of ALTER DATABASE and ALTER SCHEMA with OWNER TO |
| StatementTexts.ReassignText | internal/postgresql/role.go:199-209 | the text of REASSIGN OWNED |
| StatementTexts.MemberTexts | internal/postgresql/role_membership.go:34-54 | the texts of GRANT and REVOKE of a role |
| StatementTexts.GrantTexts | internal/postgresql/database.go:151-161 | the texts that grant CREATE, CONNECT and TEMPORARY on a database |
| StatementTexts.RevokeTexts | internal/postgresql/database.go:163-173 | the texts that revoke them |
| StatementTexts.SchemaTexts | internal/postgresql/schema.go:110-132 | the texts that grant and revoke CREATE and USAGE on a schema |
| RoleStatements.EarlyOptionTexts | internal/postgresql/role.go:74-98 | the words SUPERUSER, NOSUPERUSER, INHERIT and NOINHERIT stand for what they say |
| RoleStatements.MiddleOptionTexts | internal/postgresql/role.go:100-124 | the words CREATEROLE, NOCREATEROLE, CREATEDB and NOCREATEDB |
| RoleStatements.LateOptionTexts | internal/postgresql/role.go:126-163 | the words LOGIN, NOLOGIN, REPLICATION, NOREPLICATION, BYPASSRLS and NOBYPASSRLS |
| RoleStatements.GenerateRoleOptions | internal/postgresql/role.go:71-171 | fails exactly when an attribute that differs is not held by the operator; otherwise prints, in this order, the word for each attribute that differs and the quoted password if there is one, letter by letter |
| RoleStatements.DiffEffect | internal/postgresql/role.go:71-171 | executing the printed options turns any row into one with every differing attribute as desired, all others as before, and the desired password if not empty |
| RoleStatements.SendCreateRole | internal/postgresql/role.go:53-69 | sends nothing if an attribute may not be set; otherwise the sent text leaves the server with the declared role, INHERIT on in any case, and the operator as its admin |
| RoleStatements.SendAlterRole | internal/postgresql/role.go:183-197 | sends nothing if an attribute may not be changed; otherwise the sent text leaves the role with exactly the desired attributes |
| Outside.World.Send | internal/postgresql/role.go:63-67 | any text acts as the one statement it reads as, or fails and changes nothing |
| Outside.World.Exec | internal/postgresql/database.go:46-53 | sends exactly the text of the statement, spelled out, over the given connection, and has its effect or fails |
| Outside.World.PutResource | internal/controller/postgresdatabase_controller.go:71-73 | a resource write fails or is refused for a version that is not the latest, or stores the next version |
| CustomResources.AddFinalizer | internal/controller/postgresdatabase_controller.go:68-75 | stores the finalizer unless the copy has it, with the server as it is then; nothing is stored on failure |
| CustomResources.ReleaseFinalizer | internal/controller/postgresdatabase_controller.go:91-95 | stores the version without the finalizer, or nothing |
| CustomResources.MarkSucceeded | internal/controller/postgresdatabase_controller.go:126-131 | stores the status once, on the latest version only |
| SetReconciliation.PassIsSafe | internal/controller/postgresdatabase_controller.go:235-273 | whatever call fails and however short the listing, no desired element is removed and no undesired one added; success puts every desired one in place |
| SetReconciliation.SafeAfterEveryStatement | internal/controller/postgresdatabase_controller.go:235-273 | the same bounds hold after every single statement of a pass |
| SetReconciliation.AddFirstIsSafe | internal/controller/postgresdatabase_controller.go:286-311 | the bounds of the loop that grants before it revokes, and its exact result on success |
| SetReconciliation.NothingToSend | internal/controller/postgresrole_controller.go:297-335 | a pass sends nothing exactly when the listing and the declaration name the same elements |
| SetReconciliation.PlanHolds | internal/controller/postgresdatabase_controller.go:286-311 | the plan removes exactly what is listed and not desired and adds exactly what is desired and not listed; extensions and memberships are removed first, privileges added first |
| SetReconciliation.Contains | internal/controller/postgresrole_controller.go:299-305 | the found flag of the inner loop is list membership |
| Extensions.GetExtensions | internal/postgresql/database.go:74-91 | distinct installed names; all of them unless the rows were cut short |
| Extensions.SendDifferences | internal/controller/postgresdatabase_controller.go:235-273 | the loops send the texts of the plan of drops and creations, one after the other up to the first failure, over the database's connection |
| Extensions.ReconcileExtensions | internal/controller/postgresdatabase_controller.go:222-275 | the pass over the database's own pool ends in the state of that plan; a pool entry from a failed open makes it fail |
| Extensions.AdditionsSucceed | internal/controller/postgresdatabase_controller.go:255-273 | creation succeeds exactly when no unlisted name is installed already or listed twice |
| Extensions.PassOutcome | internal/controller/postgresdatabase_controller.go:222-275 | a faultless pass succeeds exactly when no missing extension is listed twice; a failing one installs at least one of those |
| Extensions.RetriesAreBounded | internal/controller/postgresdatabase_controller.go:222-275 | with duplicates in the list, after one pass more than there are missing names listed twice exactly the desired set is installed |
| Extensions.StaysInstalled | internal/controller/postgresdatabase_controller.go:222-275 | from then on every pass succeeds and sends nothing |
| Memberships.TrimRecovers | internal/postgresql/role_membership.go:27-29 | stripping quotes from a group's regrole text gives its name exactly when the name holds no double quote |
| Memberships.TrimExactly | internal/postgresql/role_membership.go:27-29 | trimming takes the double quotes off both ends, all of them and nothing else |
| Memberships.RegroleNames | internal/postgresql/role_membership.go:11 | regrole text, read as an SQL identifier, names the role |
| Memberships.PlainExactly | internal/postgresql/role_membership.go:11 | the names shown without quotes are exactly those that stand for themselves as bare identifiers, but for names with a dollar sign |
| Memberships.GetRoleMembership | internal/postgresql/role_membership.go:11-32 | every row, in its place, becomes its trimmed text; the rows are those of the role whose regrole text is the name |
| Memberships.ListingOf | internal/postgresql/role_membership.go:11-32 | for all names: a plain name lists the role's groups as trimmed texts, a name that is another role's quoted text lists that role's, any other name lists nothing |
| Memberships.WrongGroupRevoked | internal/postgresql/role_membership.go:11-32 | a group with a double quote in its name is taken for another name, which the pass revokes if it is not desired, so it fails unless that role exists |
| Memberships.ReconcileRoleMembership | internal/controller/postgresrole_controller.go:289-338 | the loops send the texts of the plan of revokes and grants, one after the other up to the first failure |
| Memberships.MembershipConverges | internal/controller/postgresrole_controller.go:289-338 | for all names: what a successful pass leaves, that it is memberOfRoles exactly when every superfluous group is listed and every listed desired name is a group, and when a faultless pass succeeds; without double quotes: a plain name or no superfluous group |
| Memberships.MembershipSettles | internal/controller/postgresrole_controller.go:289-338 | a pass sends nothing exactly when it lists the declared names; for a plain name and groups without double quotes, when the groups are as declared |
| Privileges.GetRolePrivileges | internal/postgresql/database.go:119-149 | on a database, lists those of CREATE, CONNECT and TEMPORARY the role effectively holds, on a schema those of CREATE and USAGE; fails only by a fault or for an unknown role or object |
| Privileges.ReconcilePrivileges | internal/controller/postgresdatabase_controller.go:278-312 | the loops turn effective privileges into grants and revokes of own ones by the plan, and send its texts one after the other up to the first failure |
| Privileges.EffectiveSplits | internal/postgresql/database.go:127-173 | a role holds exactly its own grants and what it would hold without them |
| Privileges.ExactEffect | internal/controller/postgresdatabase_controller.go:278-312 | a faultless pass over one role leaves it holding declared and inherited privileges, no matter which own grants it started from |
| Privileges.PassDecides | internal/controller/postgresdatabase_controller.go:286-311 | after a faultless pass a role holds CREATE, CONNECT, TEMPORARY or USAGE exactly if it declares it or would hold it without grants of its own |
| Privileges.FaultlessIsOneRole | internal/controller/postgresdatabase_controller.go:278-312 | without faults the loops succeed and have that effect |
| Privileges.TwoPassesReachFixpoint | internal/controller/postgresdatabase_controller.go:115-124 | for any inheritance, PUBLIC grants and iteration orders, after two faultless passes every listed role holds all it declares, own grants lie within the declaration, and a third pass changes nothing |
| Privileges.OnePassSuffices | internal/controller/postgresdatabase_controller.go:115-124 | one pass is enough when no listed role inherits from another |
| PrivilegeShortfall.OnePassFallsShort | internal/controller/postgresdatabase_controller.go:115-124 | for any number of roles, any inheritance and any order: the condition, told before the pass, under which a role ends without a privilege |
| PrivilegeShortfall.OnePassFallsShortHere | internal/controller/postgresdatabase_controller.go:278-312 | a concrete server, declaration and order for which one pass leaves a role without the CONNECT it declares and had |
| PrivilegeShortfall.InheritsTransitive | internal/postgresql/database.go:127-149 | inheritance of privileges over memberships is transitive, within the number of memberships |
| PrivilegeShortfall.HoldsExactly | internal/postgresql/database.go:127-149 | who effectively holds a privilege: a superuser, everyone if PUBLIC has it, and whoever is led to a grant by any chain of memberships whose members inherit |
| PrivilegePasses.ConvertPrivileges | internal/controller/postgresdatabase_controller.go:314-326 | lists exactly the set flags, each once |
| PrivilegePasses.ReconcileAllPrivileges | internal/controller/postgresschema_controller.go:142-152 | success means a whole pass in some order; it sends statements exactly when some role does not hold exactly what it declares; only own grants of listed roles change |
| PrivilegePasses.RightsConverge | internal/controller/postgresschema_controller.go:241-275 | a whole pass started where any interrupted one stopped leaves each listed role with what it declares and what it inherited at the start |
| Ownership.ReconcileOnCreation | internal/controller/postgresdatabase_controller.go:192-220 | creates what is missing and gives it its declared owner; sends CREATE and ALTER OWNER, in this order, as far as needed, and nothing exactly when the object exists with no declared owner or the right one |
| Ownership.ReconcileOnDeletion | internal/controller/postgresdatabase_controller.go:159-189 | nothing happens to a missing or kept object or its connections; otherwise success drops it with its grants and failure leaves the server as it was; a faultless drop fails exactly for a database whose open connections are preserved |
| Ownership.DefinitionStatements | internal/postgresql/schema.go:46-77 | creating, dropping and owning statements have exactly these effects and refusals, for databases and schemas |
| DatabaseReconciler.ExtensionStep | internal/controller/postgresdatabase_controller.go:222-275 | a pass over a complete listing sends statements exactly when the installed set differs from the declared one, and success makes them equal |
| DatabaseReconciler.Reconciler.Reconcile | internal/controller/postgresdatabase_controller.go:43-134 | whatever fails and users do meanwhile, a pass of the finalizer protocol: the finalizer is stored before the server changes and released with the database gone or kept; grants change only once owner and extensions are as declared; success brings owner, extensions and privileges to the declaration and writes exactly when something differs; other databases and grants are untouched, and connections are unless the database is to be dropped |
| DatabaseReconciler.RetryConverges | internal/controller/postgresdatabase_controller.go:101-133 | after an interrupted pass a successful one ends with the declared owner and extensions, and each listed role with declared and inherited privileges |
| DatabaseReconciler.SecondPassIsQuiet | internal/controller/postgresdatabase_controller.go:101-133 | when no listed role inherits from another, the next pass sends nothing if and only if inherited privileges lie within declared ones |
| DatabaseReconciler.TwoPassesConverge | internal/controller/postgresdatabase_controller.go:101-133 | for any inheritance and orders, two successful passes from any state leave everything as declared, and a third changes nothing |
| SchemaReconciler.Reconciler.Reconcile | internal/controller/postgresschema_controller.go:58-157 | the same for schemas over the schema's own pool; the status is set before any privilege changes, by a pass whose privileges may then fail, and vouches for existence and owner; connections are untouched |
| SchemaReconciler.RetryConverges | internal/controller/postgresschema_controller.go:126-154 | after an interrupted pass a successful one ends with the declared owner and each listed role with declared and inherited privileges |
| SchemaReconciler.SecondPassIsQuiet | internal/controller/postgresschema_controller.go:126-154 | idempotence for schemas, with the same exact condition |
| SchemaReconciler.TwoPassesConverge | internal/controller/postgresschema_controller.go:126-154 | two successful passes from any state leave everything as declared, and a third changes nothing |
| RoleDeletion.ReconcileOnDeletion | internal/controller/postgresrole_controller.go:199-241 | a missing or kept role is not touched, nor is what it owns; otherwise the texts sent are REASSIGN OWNED over each listed database's own connection and then DROP ROLE, up to the first failure; without reassignOwnedTo only the role and its memberships go |
| RoleDeletion.HandsOverThenDrops | internal/controller/postgresrole_controller.go:211-236 | DROP ROLE takes effect only after every listed database was handed over; a stopped pass handed over some and dropped nothing |
| RoleDeletion.DeletionConserves | internal/controller/postgresrole_controller.go:199-241 | after success no object is lost, the dropped role's objects belong to the new owner, and all other ownership is unchanged |
| RoleDeletion.RetryEndsTheSame | internal/controller/postgresrole_controller.go:199-241 | a deletion that stopped anywhere and is run again ends as one that ran through |
| RoleDeletion.DeletionSucceedsExactly | internal/controller/postgresrole_controller.go:199-241 | without faults a deletion succeeds if and only if the role is gone, kept, or can be dropped: not the operator's, without grants, with all it owns outside templates and a new owner for it, and no broken pool |
| SecretData.SprintDecides | internal/controller/postgresrole_controller.go:424-427 | two Secret data maps print alike exactly when they are equal, for keys of the Kubernetes alphabet |
| RolePasses.PassMoves | internal/controller/postgresrole_controller.go:67-174 | whatever fails, a pass leaves roles and cache alone or does one permitted change to the resource's own role, with the cache following it |
| RolePasses.PassSecrets | internal/controller/postgresrole_controller.go:340-438 | only the resource's own Secret can change, and only to the declared data |
| RoleReconciler.GeneratePassword | internal/controller/postgresrole_controller.go:440-451 | any string of the requested length over the charset, which holds letters and digits only |
| RoleReconciler.Reconciler.RetrieveRolePassword | internal/controller/postgresrole_controller.go:453-506 | the password is what the named Secret has under the named key, else what the generated Secret has as PGPASSWORD, else the cached one, else a new one of 64 letters and digits; and exactly when that fails |
| RoleReconciler.Reconciler.ReconcileOnCreation | internal/controller/postgresrole_controller.go:244-287 | creates or alters only if needed; the cache is set exactly when the statement succeeded |
| RoleReconciler.Reconciler.ReconcileRoleSecret | internal/controller/postgresrole_controller.go:340-438 | success leaves the Secret labelled, with PGUSER, PGPASSWORD, PGHOST, PGPORT, PGDATABASE and the template's keys and no other, each showing the role, its password and the operator's own connection, or what is rendered; it is written exactly when it changes |
| RoleReconciler.Reconciler.Reconcile | internal/controller/postgresrole_controller.go:67-174 | the imperative pass is exactly the function `RolePass`, over choices that fit: a generated password of 64 characters, the groups of the role then, all databases that are no template; the finalizer is stored before the server changes and released last |
| RoleRuns.CacheAgreesAlways | internal/controller/postgresrole_controller.go:244-287 | in every reachable state a non-empty cache entry of an existing role is its server password, with several resources per role, failures, restarts and re-creation |
| RoleRuns.ThreeCopiesAgree | internal/controller/postgresrole_controller.go:145-164 | after a successful pass server and cache hold the password, and the Secret's PGPASSWORD is it exactly when the template leaves that key alone or renders it to the password |
| RoleRuns.PassAgrees | internal/controller/postgresrole_controller.go:145-171 | after a successful pass password, attributes, cache and Secret are as declared, but for the INHERIT of a role that was missing |
| RoleRuns.PasswordIsStable | internal/controller/postgresrole_controller.go:474-506 | once a generated password is in the Secret no later run changes it, restarts included |
| RoleRuns.PassEstablishes | internal/controller/postgresrole_controller.go:145-171 | a successful untemplated pass reaches that state |
| RoleRuns.GivenPasswordStays | internal/controller/postgresrole_controller.go:474-506 | so after one such pass the password stays over any later run |
| RoleRuns.FetchesAgainExactly | internal/controller/postgresrole_controller.go:372-382 | after a successful pass the next fetch finds the same password if and only if PGPASSWORD is not templated or renders to it |
| RoleRuns.TemplateDrifts | internal/controller/postgresrole_controller.go:372-382 | a template that appends to the password makes the next pass set the longer one |
| RoleSecrets.PassShows | internal/controller/postgresrole_controller.go:353-413 | after a successful pass the Secret shows the role, the password the cache holds, and host, port and database of the operator's own connection; templated keys show what is rendered |
| RoleSecrets.PasswordComesFrom | internal/controller/postgresrole_controller.go:453-506 | after a successful pass server and cache hold the password of the named Secret and key; without one that of the generated Secret; without that the cached one; else the new one |
| RoleSecrets.LostSecretComesBack | internal/controller/postgresrole_controller.go:499-505 | when the generated Secret is deleted, the next pass brings it back with the same password, or with a new one if the operator was restarted |
| RoleRuns.AttributeFreeze | internal/postgresql/role.go:71-163 | an attribute the operator lacks is lacked for good, and no surviving role gains or loses it over any run, the operator's own role included |
| RoleRuns.EventFreezes | internal/postgresql/role.go:53-163 | a role created meanwhile has such an attribute only by the INHERIT default |
| RoleIdempotence.RestingSendsNothing | internal/controller/postgresrole_controller.go:67-174 | whatever fails, a whole pass over a role that is as declared sends nothing and changes nothing |
| RoleIdempotence.SecondPassIsQuiet | internal/controller/postgresrole_controller.go:67-174 | with plain names, a kept password and the code's own choices, the pass after a successful one sends nothing exactly when the role existed before or INHERIT is desired |
| RoleIdempotence.NextPassExactly | internal/controller/postgresrole_controller.go:67-174 | for all names and templates, exactly when the pass after a successful one sends nothing: same password found, role existed or INHERIT desired, declared groups listed |
| RoleIdempotence.PassLeaves | internal/controller/postgresrole_controller.go:145-171 | the groups a successful pass leaves, and that it sent a statement for every difference in attributes, cached password or groups |
| RoleIdempotence.PlainPassLeaves | internal/controller/postgresrole_controller.go:289-338 | with a plain name a successful pass leaves exactly memberOfRoles |
| RoleProgress.FaultlessPassSucceeds | internal/controller/postgresrole_controller.go:67-174 | a whole pass without faults succeeds if and only if its password can be read, the operator may make the change and every group to be changed exists |
| RoleProgress.MissingRoleConverges | internal/controller/postgresrole_controller.go:244-287 | a missing role is as declared after one successful pass exactly when INHERIT is declared; a later pass that succeeds needs the operator to hold INHERIT otherwise, and leaves the declared attributes |
| RoleProgress.MissingRoleFinishes | internal/controller/postgresrole_controller.go:244-287 | the faultless pass after it succeeds exactly when INHERIT is declared or held by the operator |
| RoleProgress.DeletionPassConserves | internal/controller/postgresrole_controller.go:199-241 | a whole deletion pass that succeeds with reassignOwnedTo loses no object and moves exactly the role's own |
| RoleFrames.KeptRoleStays | internal/controller/postgresrole_controller.go:119-141 | a pass of deletion does not touch a role that is kept or missing, or whose resource has no finalizer, nor what it owns; without reassignOwnedTo the role and its memberships are all that can go |
| RoleFrames.DeletionPassSucceeds | internal/controller/postgresrole_controller.go:119-141 | when a whole pass of deletion without faults succeeds, exactly |
| RoleFrames.CreationInOrder | internal/controller/postgresrole_controller.go:145-164 | whatever fails, a pass of creation changes no other role, no database, no ownership and no grant; groups change only once the role has its attributes and password, the Secret only once the groups are done |
| RoleProtocol.RolePassPerforms | internal/controller/postgresrole_controller.go:108-139 | whatever fails and users do meanwhile, a role pass is a pass of the finalizer protocol, and succeeds exactly when it comes to its end |
| Pools.PgPools.EnsureExists | internal/postgresql/pool.go:27-55 | adds at most one entry, bound to its key on the server of the default configuration, or empty after a failed open; no entry is replaced and the default configuration is unchanged |
| Pools.EntriesArePermanent | internal/postgresql/pool.go:27-55 | over any run entries stay, every pool is bound to its key, and a database is usable exactly when its first open succeeded |
| FinalizerProtocol.NeverAnOrphan | internal/controller/postgresdatabase_controller.go:57-108 | in any run of any of the three protocols, what the operator created exists only while its resource holds the finalizer or after a release by a pass that read keepOnDelete |
| FinalizerProtocol.DropsOnlyInDeletion | internal/controller/postgresschema_controller.go:99-124 | what the operator created is dropped only while the current version is in deletion and holds the finalizer, however stale the read |
| FinalizerProtocol.DropsExactly | internal/controller/postgresschema_controller.go:99-124 | for every drop: the resource that was read is still there and in deletion exactly when the current one carries its uid, and a drop on a current read is one of a resource in deletion, whoever made the object |
| FinalizerProtocol.StaleReadDropsForeign | internal/controller/postgresdatabase_controller.go:57-99 | a run in which a stale read drops an object someone else created under the name of a live resource |
| FinalizerProtocol.StatusHistory | internal/controller/postgresrole_controller.go:145-171 | Succeeded is never unset, and means that passes completed every other stage for roles and databases, creation and ownership for schemas |
| PassRuns.PassIsRun | internal/controller/postgresdatabase_controller.go:57-133 | whatever a reconciler performs is a run of the protocol from every state that read this version, ending with the versions and the object the reconciler left |
| PassRuns.PassKeepsPromises | internal/controller/postgresdatabase_controller.go:57-133 | so after a reconciler's pass in any reachable state an object the operator created and did not release has a stored resource with the finalizer |

## Left out

- Startup, flags, TLS, metrics, rate limits and leader election (cmd/main.go): library plumbing; one active process is assumed.
- The instance annotation gate: a pass starts after the resource was found to belong to this instance.
- Deepcopy code, CRD and Helm files, documentation and end-to-end helpers: generated or declarative.
- Template execution, row decoding, network connections and logging: only their result is kept.
- Ownership.ReconcileOnDeletion: connections opened again between pg_terminate_backend and DROP DATABASE are a failed DROP.
- The rows of the query that ends connections are never closed (internal/postgresql/database.go:111-117): the sizes of pools are not modelled.
- Liveness of deletion: a role's deletion needs its password Secret to be readable and a schema's its database to be reachable, so neither is unconditional.
- PassRuns.PassIsRun: within one pass users edit the resource, but others do not create or drop the remote object and no reply is lost; the protocol itself allows both.
- FinalizerProtocol.StaleReadDropsForeign: one run, as a witness that the ownership condition of DropsOnlyInDeletion is needed.
- PrivilegePasses.RightsConverge: for listed roles that do not inherit from one another, and so RetryConverges and SecondPassIsQuiet; for the others PrivilegeShortfall.OnePassFallsShort says who holds what after one pass and TwoPassesConverge what two passes leave.
- Privileges.TwoPassesReachFixpoint: the third pass changes nothing, but it may still send REVOKE statements for inherited privileges that are not declared; SecondPassIsQuiet says when nothing is sent.
- RoleRuns.AttributeFreeze: between passes nobody else alters roles.
- RoleIdempotence.SecondPassIsQuiet: for names that read back plainly and a password that is kept; NextPassExactly has no such condition.
- RolePasses.PassSecrets: the label and data of a Secret are modelled, other metadata is not.
- DatabaseReconciler.Reconciler.Reconcile: its convergence clauses speak of complete extension listings; for truncated ones only the safety clauses remain.
- Pools.PgPools.EnsureExists: the two error returns before a pool is opened (settings that cannot be parsed, no default pool) are decided once at start and left out; they add no entry.
- Moving an owner's access entries on CREATE, ALTER OWNER and REASSIGN OWNED: grants are only changed by GRANT, REVOKE and DROP.
