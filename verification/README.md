# Jumpgate, verified

A Dafny model of the parts of Jumpgate whose correctness is decided by code: the control plane `warden` (Go and its SQL) and the data-plane gateway (Rust). Every statement is proved for all inputs, all runs or all reachable states; nothing is executed.

`dafny verify dfyconfig.toml` checks the whole project.

## What is modelled

**The catalog and containment** (`Forest`, `Ltree`, `Catalog`, `CatalogSafety`, `CatalogService`, `CatalogEffects`, `CatalogPaths`, `EffectivePolicy`). Folders form a forest kept twice, as parent links and as materialised ltree paths rewritten by a trigger. Assets live in folders, roles and groups may be homed in a folder, roles confer one another through rewrites, and a binding or request policy must be scoped inside its role's home. `Catalog` specifies each write by what must hold of the tables after it. `CatalogService` is the service as a class: it decides beforehand, with the closed formula for post-move ancestors, memoisation and loops, and is proved to give the same outcome and tables. The invariant holds in every state any sequence of writes reaches. `CatalogEffects` says on the columns, independently of the transactions, when each write is accepted and which rows it leaves.

**Held roles** (`RoleClosure`). The recursive queries: the forward held closure, the scopeless closure, the backward goal search and the explanation paths, proved to agree on cyclic rewrite graphs.

**Capabilities** (`Capabilities`, `CapStorage`, `Delegation`). The pattern matcher, the subsumption test, the three-column storage and the SQL column predicate are compared through one meaning of patterns. Delegation under the no-escalation rule is a run of bindings, policies, rewrites, requests, grants and membership changes on a fixed tree, with what a user holds taken through the role closure.

**Just-in-time access** (`Durations`, `AccessMachine`, `AccessSafety`, `AccessCommits`, `AccessEnds`, `AccessHistory`, `AccessGovernance`, `AccessService`, `AccessEffects`, `AccessRuns`). Requests, votes, cancellations, the four ways a grant ends, the teardown after a commit and the deletion of users and assets are transactions that interleave step by step. A transaction keeps its writes private until it commits, holds row locks and unique-index entries, may roll back anywhere, and may crash between commit and teardown. Governance answers, the clock and fresh ids come from outside at each step. The tables carry one piece of history that no query reads: who decided a granted or denied request. `AccessService` is the service as a class; each method equals an uninterrupted run of the machine. `AccessGovernance` traces every ballot, request and grant back to the step it comes from, and `AccessEffects` says column by column when a call is accepted and what it leaves.

**The audit trail** (`Octets`, `HashChain`, `Outbox`, `OutboxSafety`, `OutboxOrigins`, `AuditLogger`, `Anchors`). The digest is an arbitrary function to 32 bytes, so tamper evidence is stated as: equal histories, or here is a collision, or a preimage of 32 zero bytes. Enqueueing domain transactions, direct appends and drains interleave under the advisory lock; every record goes back to the call that asked for it, and none is lost. Anchoring is a run of ticks over a table that may change arbitrarily between ticks and between the reads of one, with the check's read, the tip read and the write each failing or not.

**Small engines** (`Throttle`, `IdleTokens`, `LoadBalancer`, `Streams`, `RequestHead`, `Frames`, `Paging`). Each is a class or a loop proved against an independent specification: an event history, a call schedule, the live guards, a full rescan, a byte string, the filter of the whole listing. The request head ends at the blank line of section 2.1 of RFC 9112.

## Where the code does less or other than it says

In each case the model follows the code, a lemma gives the input, and the exact condition is proved.

- `warden/internal/authz/capmatch_sql_test.go` and the comment on `Check` call the column predicate equivalent to `CapMatch` on requests of at most three segments. `ssh:login:*` against `ssh:login` differs (`CapStorage.QualifierOverreach`, `CapStorage.SqlAgreesExactly`).
- Storage widens a trailing run of wildcards and narrows a third-place `**` (`CapStorage.StorageInputs`, `CapStorage.StoredExact`).
- `Covers` refuses a target ending in `**` that two held patterns cover only together (`Capabilities.SharedCoverRefused`, `Capabilities.CoversSetExact`).
- The no-escalation guard is meant to keep anyone from handing out what nobody held there. It looks at a role's own capabilities only, and for a rewrite only at the recipient's home, so with rewrites more can be handed out (`Delegation.RewriteEscapes`, `Delegation.BindEscapes`, `Delegation.StepKeepsExactly`).
- A clamped duration below a microsecond becomes a one-minute window, and a policy cap can overflow int64 (`Durations.WindowsBoundedExactly`, `Durations.WrappedCapOverruns`).
- The role cascade promises that live grants are revoked and audited. A grant minted between its update and its commit is not, nor is one expired and not yet reaped (`AccessRuns.LateMintUnrecorded`, `AccessService.RoleCascadeRecords`, `AccessHistory.CascadeAuditsExactly`).
- Deleting a user is documented to take memberships, bindings and policy subjects along. It also takes their ballots, which can leave a granted request below its threshold (`AccessRuns.GrantedWithoutApprovals`, `AccessHistory.BallotsTellExactly`).
- The anchorer is there to notice when the table no longer covers what was anchored. It never verifies the chain, and after a check whose read failed it still replaces the reference, so its silence alone says nothing (`Anchors.TrustNeeded`, `Anchors.SilenceMeansAppendOnly`).
- Anchors must never be overwritten. After a startup that could not read the store they can be (`Anchors.FailedRestartOverwrites`, `Anchors.AppendOnlyExactly`).
- `RetryAfter` is documented to be zero when nothing is blocked. It is the rest of the window after any failure (`Throttle.RetryWithoutBlock`, `Throttle.RetryZero`).
- A folder whose dotted path parses as an id cannot be resolved by path (`CatalogPaths.ShadowedFolder`, `CatalogPaths.ResolveFolder`).
- Creating a folder under a missing parent fails on the null path before the foreign key is looked at, so it surfaces as an internal error (`CatalogSafety.MissingParentInternal`).

## Model

| member | source | states |
|---|---|---|
| Forest.AncestorsAndSelf | warden/internal/postgres/queries/catalog.sql:219-227 | The upward recursive query returns exactly the ancestors-and-self of a folder, and ends because the forest is acyclic. |
| Forest.SubtreeIds | warden/internal/postgres/queries/catalog.sql:238-245 | The downward recursive query returns exactly the folders that reach the root of the subtree. |
| Forest.MoveAcyclic | warden/internal/catalog/folders.go:317-341 | After re-parenting, the forest is acyclic if and only if the new parent is not in the moved subtree: the cycle guard is exact. |
| Forest.MoveOutside | warden/internal/catalog/move.go:107-115 | Folders outside the moved subtree keep their ancestor sets. |
| Forest.MoveInside | warden/internal/catalog/move.go:107-168 | For a folder in the moved subtree, (old ancestors within the subtree) plus (ancestors-and-self of the new parent) is its true ancestor set in the moved forest. |
| Forest.InsertLeaf | warden/internal/catalog/folders.go:40-63 | Creating a folder keeps the forest acyclic and every existing ancestor set. |
| Forest.DeleteLeaf | warden/internal/catalog/folders.go:201-256 | Deleting a childless folder keeps the forest acyclic and every other ancestor set. |
| Ltree.PrefixDecidesSubtree | warden/internal/postgres/migrate/migrations/0001_schema.sql:13-46 | While materialised paths agree with the parent links, the ltree containment test decides subtree membership both ways. |
| Ltree.PathsAcyclic | warden/internal/postgres/migrate/migrations/0001_schema.sql:33-46 | A forest whose every folder has a path ending in itself behind its parent's path cannot have a cycle. |
| Ltree.MovePathsOk | warden/internal/postgres/migrate/migrations/0001_schema.sql:13-31 | The trigger that rewrites the moved subtree's paths restores agreement between all paths and all parent links. |
| Ltree.InsertPath | warden/internal/postgres/migrate/migrations/0001_schema.sql:33-46 | The insert trigger gives a new folder the path its parent link demands. |
| Ltree.DeletePath | warden/internal/catalog/folders.go:201-256 | Deleting a childless folder leaves the other paths in agreement. |
| CatalogSafety.CreateFolderKeeps | warden/internal/catalog/folders.go:40-63 | A folder create, refused or not, keeps every catalog invariant: forest, paths, names, homes and containment. |
| CatalogSafety.MissingParentInternal | warden/internal/postgres/migrate/migrations/0001_schema.sql:33-46 | A folder create is answered with an internal error if and only if its parent is missing, because its path is then null; no refusal changes a table. |
| CatalogSafety.UpdateFolderKeeps | warden/internal/catalog/folders.go:271-368 | A folder rename or move, refused or not, keeps every catalog invariant. |
| CatalogSafety.MoveContained | warden/internal/catalog/move.go:116-235 | A move whose affected bindings and policies are contained in the moved tree leaves every binding and policy contained, including those homed in the moved folder itself and moves to the root. |
| CatalogSafety.DeleteFolderKeeps | warden/internal/catalog/folders.go:201-256 | A folder delete past its blockers, groups homed in it among them, keeps every catalog invariant; nothing is left pointing at the folder. |
| CatalogSafety.CreateAssetKeeps | warden/internal/catalog/assets.go:46-139 | Creating an asset keeps every catalog invariant. |
| CatalogSafety.UpdateAssetKeeps | warden/internal/catalog/assets.go:502-574 | Renaming or moving an asset keeps every catalog invariant. |
| CatalogSafety.DeleteAssetKeeps | warden/internal/catalog/assets.go:444-488 | Deleting an asset with its bindings and policies keeps every catalog invariant. |
| CatalogSafety.CreateRoleKeeps | warden/internal/access/roles.go:26-47 | Creating a role keeps every catalog invariant. |
| CatalogSafety.DeleteRoleKeeps | warden/internal/accessrequest/grants.go:158-186 | Deleting a role keeps every catalog invariant. |
| CatalogSafety.DeleteRoleLeavesNoReference | warden/internal/accessrequest/grants.go:158-186 | After a role is deleted no binding has it, no policy grants it, requester and approver references to it are cleared and no other, and no rewrite has it at either end; every other row and column survives. |
| CatalogSafety.DeleteRoleSubjects | warden/internal/accessrequest/grants.go:166-175 | Exactly the subjects of the deleted role's policies go with them. |
| CatalogSafety.CreateBindingKeeps | warden/internal/access/bindings.go:21-41 | A new binding is contained in its role's home subtree, or refused. |
| CatalogSafety.CreatePolicyKeeps | warden/internal/access/policies.go:37-62 | A new request policy is contained and the only one for its role and scope, or refused. |
| CatalogSafety.UpdatePolicyKeeps | warden/internal/access/policies.go:67-77 | Editing a policy keeps every catalog invariant. |
| CatalogSafety.DeletePolicyKeeps | warden/internal/access/policies.go:79-88 | Deleting a policy keeps every catalog invariant. |
| CatalogSafety.DeleteBindingKeeps | warden/internal/access/bindings.go:45-50 | Deleting a binding keeps every catalog invariant. |
| CatalogSafety.DeleteSubjectKeeps | warden/internal/identity/groups.go:270-277 | Deleting a user or group with its bindings and policy subjects keeps every catalog invariant. |
| CatalogSafety.TreeLinksKept | warden/internal/catalog/folders.go:197-256 | No tree write leaves a group without its home folder or a policy subject without its policy. |
| CatalogSafety.RowLinksKept | warden/internal/postgres/migrate/migrations/0001_schema.sql:692-699 | No other write leaves a binding or policy subject naming a user or group that is gone, a subject without its policy, or a rewrite between roles that are gone or from a role to itself on the same object. |
| CatalogSafety.Reachable | warden/internal/access/service.go:160-197 | In every state any sequence of catalog, role, user, group, rewrite, binding, policy and subject writes reaches from the empty tables, every binding and every policy's granted role is global or homed at or above its scope node, the forest is acyclic with correct paths, sibling names are unique and foreign keys hold. |
| CatalogService.FormulaDecides | warden/internal/catalog/move.go:107-168 | Checking a role's home against the closed formula before the move decides containment in the tree after it. |
| CatalogService.AssetMoveDecides | warden/internal/catalog/move.go:65-99 | Checking a role's home against the destination's ancestors decides containment after the asset move. |
| CatalogService.Service.NewAnc | warden/internal/catalog/move.go:147-168 | The memoised ancestor lookup returns the closed formula's set and keeps the cache correct. |
| CatalogService.Service.BindingsMoveOk | warden/internal/catalog/move.go:185-207 | The loop over affected bindings answers exactly whether all of them are contained after the move. |
| CatalogService.Service.PoliciesMoveOk | warden/internal/catalog/move.go:209-233 | The loop over affected policies answers exactly whether all their role references are contained after the move. |
| CatalogService.Service.ValidateFolderMove | warden/internal/catalog/move.go:116-235 | The pre-move validation accepts if and only if every affected binding's role and every affected policy's granted, requester and approver role is contained in the tree after the move; CatalogEffects.StayHomeExactly says the same on the columns, role by role. |
| CatalogService.Service.ValidateAssetMove | warden/internal/catalog/move.go:65-99 | The asset-move validation accepts if and only if everything scoped to the asset is contained after the move. |
| CatalogService.Service.CheckFolderMove | warden/internal/catalog/folders.go:317-341 | Cycle guard, containment and foreign key give the first error that the tree after the move demands. |
| CatalogService.Service.CreateFolder | warden/internal/catalog/folders.go:40-63 | Outcome and new tables equal the specified transaction, error cases included; CatalogEffects.FolderCreated says when and what on the columns. |
| CatalogService.Service.UpdateFolder | warden/internal/catalog/folders.go:271-368 | Cycle guard, validation, move, rename: outcome and new tables equal the specified transaction; when it is accepted and what it leaves is given column by column by CatalogEffects.FolderUpdateExactly and CatalogEffects.FolderUpdated. |
| CatalogService.Service.DeleteFolder | warden/internal/catalog/folders.go:201-256 | Blockers and deletion: outcome and new tables equal the specified transaction; CatalogEffects.FolderDeleted says when and what on the columns. |
| CatalogService.Service.UpdateAsset | warden/internal/catalog/assets.go:502-574 | Outcome and new tables equal the specified transaction; CatalogEffects.AssetUpdateExactly and CatalogEffects.AssetUpdated say when and what on the columns. |
| CatalogService.Service.ContainedInRoleSubtree | warden/internal/access/service.go:160-197 | The creation check answers exactly as containment of the role in the scope demands. |
| CatalogService.Service.CreateRoleBinding | warden/internal/access/bindings.go:21-41 | Outcome, with the no-escalation refusal and the missing subject, and new tables equal the specified transaction; CatalogEffects.BindingCreated says when and what on the columns. |
| CatalogService.Service.CreateRequestPolicy | warden/internal/access/policies.go:37-62 | Outcome, the no-escalation refusal included, and new tables equal the specified transaction; CatalogEffects.PolicyCreated says when and what on the columns. |
| CatalogEffects.FolderUpdated | warden/internal/catalog/folders.go:271-368 | An accepted rename or move leaves the folder under the parent and name asked for, or the old ones where none is given; every other folder keeps name and parent, the names table changes only in the folder's own entry, and every other table is as it was. |
| CatalogEffects.FolderUpdateExactly | warden/internal/catalog/folders.go:271-368 | A rename or move is accepted if and only if the folder exists, the new name is canonical and no other entry holds it at the new place, and, where the parent changes, the new parent is the root or a folder outside the moved subtree and every role named by a binding or policy there stays in reach of its home; not found means exactly that the folder is missing. |
| CatalogEffects.StayHomeExactly | warden/internal/catalog/move.go:51-60 | The containment demand on the tree after a move is, before it, that each affected binding's role and each affected policy's granted, requester and approver role is global or homed in the scope's ancestors under the changed parent link. |
| CatalogEffects.FolderUpdateRefusals | warden/internal/catalog/folders.go:317-349 | Each refusal of an update is given exactly, with its code: cycle or containment first, then the missing parent or the malformed name, then the taken name. |
| CatalogEffects.RefusedChangesNothing | warden/internal/catalog/folders.go:310-341 | A refused write of any kind changes no table. |
| CatalogEffects.FolderCreated | warden/internal/catalog/folders.go:40-63 | A folder is created if and only if its parent exists, its name is canonical and free and its id new; it lands there under that name and nothing else changes but its entry. |
| CatalogEffects.FolderDeleted | warden/internal/catalog/folders.go:201-256 | A folder is deleted if and only if no folder, asset, role, group, binding or policy is in it; exactly its row and its entry go. |
| CatalogEffects.AssetCreated | warden/internal/catalog/assets.go:46-139 | An asset is created if and only if its folder exists, its name is canonical and free and its id new; it lands there under that name. |
| CatalogEffects.AssetUpdateExactly | warden/internal/catalog/assets.go:502-574 | An asset update is accepted if and only if the asset exists, the name is canonical and not another's, and, where the folder changes, the new one exists and every role named by a binding or policy on the asset is global or homed at or above it. |
| CatalogEffects.AssetUpdated | warden/internal/catalog/assets.go:502-574 | An accepted asset update leaves the asset in the folder and under the name asked for, moves its entry, and changes nothing else. |
| CatalogEffects.AssetDeleted | warden/internal/catalog/assets.go:444-488 | Deleting an asset takes exactly its row, its entry, the bindings and policies scoped to it and those policies' subjects. |
| CatalogEffects.BindingCreated | warden/internal/access/bindings.go:21-41 | A binding is created if and only if the guard passes, the role is global or homed at or above an existing scope, the subject exists and the id is new; the row is the one given. |
| CatalogEffects.PolicyCreated | warden/internal/access/policies.go:37-62 | A policy is created if and only if the guard passes, the role is global or homed at or above an existing scope, its requester and approver roles exist and no policy has its role and scope; the row is the one given. |
| CatalogEffects.PolicyUpdated | warden/internal/access/policies.go:67-77 | A policy edit sets requester and approver role, to roles that exist, and nothing else. |
| CatalogEffects.RoleCreated | warden/internal/access/roles.go:26-47 | A role is created if and only if its home exists and its id is new, with that home. |
| CatalogEffects.GroupCreated | warden/internal/identity/groups.go:27-36 | A group is created if and only if its home exists and its id is new, with that home. |
| CatalogEffects.RewriteAdded | warden/internal/access/grants.go:24-40 | A rewrite is added if and only if both roles exist, the guard passes, it is new and no role confers itself on the same object. |
| CatalogEffects.SubjectDeleted | warden/internal/identity/groups.go:270-277 | Deleting a user or group takes exactly it and the bindings and policy subjects that name it. |
| CatalogPaths.ChainInjective | warden/internal/postgres/queries/catalog.sql:201-214 | With unique sibling names, two folders with the same chain of names are the same folder. |
| CatalogPaths.ResolveFolderIdByPath | warden/internal/catalog/folders.go:23-36 | Resolving a dotted path finds folder f if and only if the path is f's canonical path. |
| CatalogPaths.ResolveAssetByPath | warden/internal/catalog/assets.go:376-437 | Resolving a dotted path finds asset a if and only if the path is a's canonical path. |
| CatalogPaths.ResolveFolder | warden/internal/catalog/folders.go:167-195 | A reference resolves by id if it parses as one and by path otherwise: a folder's path resolves to it exactly when the path does not parse as an id other than its own. |
| CatalogPaths.HexNameShadowed | warden/internal/catalog/folders.go:167-173 | A folder named with any 32 hexadecimal digits, which is a canonical name, does not resolve by its own path unless they spell its id. |
| CatalogPaths.ShadowedFolder | warden/internal/catalog/folders.go:167-173 | One such tree, spelled out. |
| EffectivePolicy.EffectiveContained | warden/internal/postgres/migrate/migrations/0001_schema.sql:967-995 | Any policy that governs a role on an asset is contained: the role is global or homed at or above the asset. |
| EffectivePolicy.RankUnique | warden/internal/postgres/migrate/migrations/0001_schema.sql:967-995 | Two policies tie in rank only at the rank of the role default, and then one of them is the default and the other a folder override 999999 links up. |
| EffectivePolicy.AssetOverrideWins | warden/internal/postgres/migrate/migrations/0001_schema.sql:967-995 | An asset override governs whenever it exists. |
| EffectivePolicy.NearestFolderWins | warden/internal/postgres/migrate/migrations/0001_schema.sql:967-995 | A folder policy is beaten only by an asset override, a nearer folder policy or, from 999999 links up, the role default. |
| EffectivePolicy.DefaultBeatsFar | warden/internal/postgres/migrate/migrations/0001_schema.sql:967-995 | From a million links up the role default does beat it. |
| EffectivePolicy.GovernedExactly | warden/internal/postgres/migrate/migrations/0001_schema.sql:967-995 | Some policy governs a role on an asset if and only if one for the role is set on the asset, on its folder or one above, or for the role as such; the governing one is such a policy. |
| RoleClosure.Closure | warden/internal/postgres/migrate/migrations/0001_schema.sql:850-892 | The recursive query with UNION computes exactly what is reachable from its base rows, cycles included. |
| RoleClosure.StepsConverse | warden/internal/postgres/migrate/migrations/0001_schema.sql:935-965 | One step of the goal search is the exact converse of one step of the held closure. |
| RoleClosure.UserGroups | warden/internal/postgres/migrate/migrations/0001_schema.sql:821-834 | The group query returns exactly the groups a user is in, directly or through groups. |
| RoleClosure.Held | warden/internal/postgres/migrate/migrations/0001_schema.sql:850-908 | The held closure is exactly the set of role-object pairs a user holds. |
| RoleClosure.GlobalHeld | warden/internal/postgres/migrate/migrations/0001_schema.sql:906-928 | The scopeless closure is exactly the set of roles reachable from a scopeless binding over rewrites of both kinds. |
| RoleClosure.HoldsRole | warden/internal/authz/roleresolver.go:34-64 | The backward goal search answers true if and only if the forward closure holds the role on the object, with and without grants. |
| RoleClosure.ExplainedIffHeld | warden/internal/authz/roleresolver.go:100-134 | A cycle-free explanation path exists if and only if the role is held. |
| RoleClosure.HoldsExactly | warden/internal/postgres/migrate/migrations/0001_schema.sql:850-892 | A role is held on an object if and only if a binding or live grant gives it, a same-object rewrite confers it from a role held there, or a parent rewrite confers it from a role held on the folder directly above. |
| RoleClosure.GloballyHoldsExactly | warden/internal/postgres/migrate/migrations/0001_schema.sql:906-928 | A role is held globally if and only if a scopeless binding gives it or a rewrite of either kind confers it from a role held globally. |
| RoleClosure.InGroupExactly | warden/internal/postgres/migrate/migrations/0001_schema.sql:821-834 | A user is in a group if and only if they are a member of it or a group they are in is. |
| RoleClosure.DeactivatedHoldsNothing | warden/internal/postgres/migrate/migrations/0001_schema.sql:850-908 | A deactivated user holds no role on any object or globally, directly, by grant or through rewrites. |
| RoleClosure.StandingIgnoresGrants | warden/internal/postgres/migrate/migrations/0001_schema.sql:850-908 | What is held without grants is what would be held with the grant table empty. |
| Capabilities.MatchIsDenotes | warden/internal/authz/capabilities.go:18-42 | CapMatch accepts exactly the capabilities a pattern stands for; a malformed pattern stands for none. |
| Capabilities.CoversIsSubsumes | warden/internal/authz/scope.go:64-96 | covers1 accepts exactly when the held pattern subsumes the target segment by segment. |
| Capabilities.Covers1Sound | warden/internal/authz/scope.go:64-96 | For all strings: what a covered target matches, the held pattern matches. |
| Capabilities.Covers1Exact | warden/internal/authz/scope.go:64-96 | For a well-formed target covers1 is true if and only if every concrete capability the target matches is matched by the held pattern, with built witnesses for the refusals. |
| Capabilities.MalformedTargetGrantsNothing | warden/internal/authz/scope.go:64-96 | A malformed target matches nothing and is still refused, so well-formedness is needed for exactness. |
| Capabilities.CoversSetExact | warden/internal/authz/scope.go:52-60 | Covers over a set is sound, and agrees with inclusion if and only if the work is not shared: the target ends in **, each of finitely many probe capabilities of lengths up to one more than the longest held pattern is matched by some held pattern, and no held pattern ending in ** matches the shortest. |
| Capabilities.SharedCoverRefused | warden/internal/authz/scope.go:52-60 | The concrete exception: a:* and a:*:** together grant all of a:**, which Covers refuses. |
| Capabilities.Covers1Transitive | warden/internal/authz/scope.go:64-96 | Subsumption is transitive for all patterns. |
| CapStorage.NormalizeCap | warden/internal/authz/capnorm.go:11-32 | The loop fills the three columns as specified position by position. |
| CapStorage.ReconstructCap | warden/internal/authz/capnorm.go:36-51 | The trimming and run-counting loops give the specified text. |
| CapStorage.StoredIdempotent | warden/internal/authz/capnorm.go:11-51 | Storing a stored pattern changes nothing, for every string. |
| CapStorage.StoredText | warden/internal/authz/capnorm.go:11-51 | For a well-formed pattern, exactly which segments the stored text has. |
| CapStorage.StoredKeepsMatches | warden/internal/authz/capnorm.go:11-51 | Storage loses no match against a capability of at most three segments. |
| CapStorage.StoredExact | warden/internal/authz/capnorm.go:11-51 | Storage preserves matching on all concrete capabilities if and only if the pattern has no trailing wildcard run of two or more within three segments and no ** in third place; on at most three segments if and only if it has no such run. |
| CapStorage.StorageInputs | warden/internal/authz/capnorm.go:11-51 | The patterns a:*:* and a:b:** are stored as a:** and a:b:*, neither matching what it did before. |
| CapStorage.SqlMatchIs | warden/internal/postgres/queries/authz.sql:16-24 | For every admitted pattern and every request: up to three segments the column predicate accepts what CapMatch accepts, requests that stop short of a pattern whose rest is wildcards, and longer requests under a third-place *; a longer pattern it compares from the third segment on as text. |
| CapStorage.SqlAgreesExactly | warden/internal/authz/authorizer.go:176-205 | On requests of n to three segments the column predicate agrees with CapMatch if and only if the pattern is not one of at most three segments that ends, beyond its first n, in a wildcard. |
| CapStorage.SqlAgreesBeyond | warden/internal/authz/authorizer.go:176-205 | On requests of n or more segments the exceptions are exactly three: that overhang, a three-segment pattern ending in *, and a longer one with a wildcard from its third segment on. |
| CapStorage.QualifierOverreach | warden/internal/postgres/queries/authz.sql:16-24 | The pair ssh:login:* and ssh:login: accepted by the columns, refused by CapMatch. |
| Delegation.InForceTransitive | warden/internal/postgres/queries/authz.sql:50-77 | What is in force at a place is in force wherever that place is. |
| Delegation.CapabilitiesOnScope | warden/internal/postgres/queries/authz.sql:46-77 | The capability queries return exactly the patterns of roles held globally or on an object in force at the place, rewrites, groups and live grants included. |
| Delegation.RequireGrantable | warden/internal/apiguard/guard.go:80-91 | Passes if and only if each capability is covered by one the caller holds at the place. |
| Delegation.HoldsAtIs | warden/internal/postgres/migrate/migrations/0001_schema.sql:850-928 | The object closure and the scopeless closure together are one closure over rewrites in which a globally held role confers globally. |
| Delegation.StepKeepsExactly | warden/internal/access/grants.go:17-51 | An accepted binding, policy or rewrite hands out nothing at any place that was not handed out there before if and only if every pattern of every role in its rewrite closure was backed wherever it comes into force; removals, requests, mints and changes of membership or activity never hand out anything new. |
| Delegation.NoEscalation | warden/internal/apiguard/guard.go:78-91 | Over every run of bindings, policies, rewrites, requests, grants and membership changes on a fixed tree in which each step meets that condition, whatever a user is allowed at a place at the end was handed out there at the beginning. |
| Delegation.NoEscalationWithoutRewrites | warden/internal/access/bindings.go:16-41 | Without rewrites the guard alone gives this for every run. |
| Delegation.LeafWriteVouched | warden/internal/access/bindings.go:21-41 | For a role that confers no other the guard implies the condition. |
| Delegation.LeafRewriteVouched | warden/internal/access/grants.go:24-40 | So it does for a rewrite whose recipient confers no other role and whose recipient's home is in force wherever the rewrite applies. |
| Delegation.RewriteEscapes | warden/internal/access/grants.go:24-40 | Concrete folders, roles and users: an accepted rewrite gives a user a capability on a folder where nobody held anything. |
| Delegation.BindEscapes | warden/internal/apiguard/guard.go:146-171 | Concretely: an accepted binding of a role without capabilities does the same through a rewrite. |
| Delegation.StaffedIsHeld | warden/internal/postgres/migrate/migrations/0001_schema.sql:850-892 | If every row gives its role to an active user, whatever is handed out at a place is held there by a user. |
| Delegation.RemovalsExactly | warden/internal/access/bindings.go:45-50 | What is unbound, removed, withdrawn or ended is gone, and nothing else. |
| Durations.ToDurationIs | warden/internal/accessrequest/dto.go:31-41 | All the wrapping int64 operations amount to one wrap of the true number of nanoseconds. |
| Durations.ClampBounds | warden/internal/accessrequest/dto.go:44-55 | The clamp never exceeds the request or the true ceiling, overflow or not; without overflow it is exactly the least of request, cap and server limit. |
| Durations.OverflowingCap | warden/internal/accessrequest/dto.go:31-55 | A concrete cap that overflows to one microsecond. |
| Durations.VotedWindowIs | warden/internal/accessrequest/dto.go:58-70 | The window after the round trip through the interval column: the granted duration less its sub-microsecond part, or one minute if that leaves nothing; it stays within the granted duration if and only if that is at least a microsecond. |
| Durations.WindowsBoundedExactly | warden/internal/accessrequest/dto.go:44-70 | Both minting routes give a positive window within cap and limit if and only if the clamped duration is at least a microsecond or the one-minute fallback is itself within the ceiling. |
| Durations.WholeSecondsBounded | warden/internal/accessrequest/handler.go:207 | For whole seconds without overflow and a server limit of at least a microsecond both windows are positive and within the ceiling. |
| Durations.WrappedCapOverruns | warden/internal/accessrequest/dto.go:31-70 | A concrete overflowing cap that turns one second into a one-minute window under a thirty-second limit. |
| AccessSafety.OpenKeeps | warden/internal/accessrequest/requests.go:20-94 | Opening a request up to its commit keeps the invariant with every other transaction in flight. |
| AccessSafety.ResolveKeeps | warden/internal/accessrequest/requests.go:184-214 | Counting, with one's own ballot visible, and minting at the threshold keep the invariant. |
| AccessCommits.CommitVoteKeeps | warden/internal/accessrequest/requests.go:122-241 | Committing a vote keeps the invariant: tally, grant, audit rows and what other running transactions rely on. |
| AccessCommits.CommitCancelKeeps | warden/internal/accessrequest/requests.go:244-280 | Committing a cancellation keeps the invariant. |
| AccessCommits.CommitOpenKeeps | warden/internal/accessrequest/requests.go:80-110 | Committing a new request, self-service or pending, keeps the invariant. |
| AccessEnds.CommitEndKeeps | warden/internal/accessrequest/grants.go:32-197 | Committing any of the four endings keeps the invariant. |
| AccessEnds.TearKeeps | warden/internal/accessrequest/grants.go:192-196 | Each terminator call after a commit keeps the count of calls within the recorded ends, also if a crash loses the rest. |
| AccessEnds.DeleteKeeps | warden/internal/identity/service.go:329-336 | Deleting a user or an asset with everything the foreign keys take along keeps the invariant with every other transaction in flight. |
| AccessEnds.WithoutTally | warden/internal/postgres/migrate/migrations/0001_schema.sql:674-687 | Deleting a user takes their ballot out of the table and out of what is left of those who decided a request alike. |
| AccessEnds.Reachable | warden/internal/accessrequest/service.go:5-19 | Every state of every interleaving, with rollbacks anywhere and users and assets deleted at any time, satisfies the invariant, including that audit rows and tables agree except for the ballots of deleted voters. |
| AccessHistory.WorkflowSafe | warden/internal/accessrequest/requests.go:122-241 | In every reachable state a request has exactly one grant if granted and none otherwise; a granted one was granted by exactly its threshold of approvers, none the requester, and the approvals in the table are those of the approvers who still exist; any other has fewer than its threshold; and no two pending requests share requester, role and asset. |
| AccessHistory.BallotsTellExactly | warden/internal/identity/service.go:329-336 | In every reachable state a request is granted exactly if its ballots reach the threshold, and denied exactly if it has a denial, if and only if it is not one whose deciding voters include a deleted user. |
| AccessHistory.WindowsSafe | warden/internal/accessrequest/requests.go:282-297 | In every reachable state, with a server limit of at least a microsecond, each grant of a request for a positive number of whole seconds, when neither these nor the policy's cap overflow an int64 of nanoseconds, has a positive window within cap and server limit. |
| AccessHistory.EndsAtMostOnce | warden/internal/accessrequest/grants.go:32-197 | Over every run the four routes together leave at most one end event and one terminator call per grant, and a stored grant is revoked exactly if its end is recorded. |
| AccessHistory.GoneUnmentioned | warden/internal/postgres/migrate/migrations/0001_schema.sql:662-690 | In every reachable state a role, user or asset that is gone is mentioned by no request, ballot or grant. |
| AccessHistory.RunForward | warden/internal/accessrequest/requests.go:122-280 | Over every run resolved requests keep their status and their deciders, ballots stand while their request and voter exist, grants change only by becoming revoked, and what is gone stays gone. |
| AccessHistory.InactiveForever | warden/internal/accessrequest/dto.go:97-114 | A grant that is not active never becomes active again. |
| AccessHistory.ReapTwice | warden/internal/accessrequest/reaper.go:15-53 | Reaping again over the same or an earlier window finds nothing. |
| AccessHistory.CascadeAuditsExactly | warden/internal/accessrequest/grants.go:134-186 | Over every run: a grant that a role cascade deletes has its end recorded if and only if it was in the table, unrevoked and within its window at the step of the cascade's update, or was revoked by its commit. |
| AccessHistory.DeletionAuditsExactly | warden/internal/postgres/migrate/migrations/0001_schema.sql:671-675 | Over every run: a grant that the deletion of its user or asset takes along has its end recorded, then and after every continuation, if and only if it was revoked before the deletion. |
| AccessHistory.GoneSilent | warden/internal/postgres/migrate/migrations/0001_schema.sql:662-675 | No run brings back a grant that is gone or adds an end event for it. |
| AccessRuns.LateMintUnrecorded | warden/internal/accessrequest/grants.go:134-186 | A run of twelve actions from the empty tables in which a grant minted between the cascade's update and its commit disappears with no end event and no terminator call. |
| AccessRuns.GrantedWithoutApprovals | warden/internal/identity/service.go:329-336 | A run from the empty tables after which a request that needs one approval is granted with none in the table, its approver having been deleted. |
| AccessGovernance.BallotWasAdmitted | warden/internal/accessrequest/requests.go:137-167 | Over every interleaving each ballot in the table goes back to a step at which its request was locked and pending, governance named the voter an approver, the voter was not the requester, and for an approval the requester was still eligible. |
| AccessGovernance.DeciderWasAdmitted | warden/internal/accessrequest/requests.go:137-214 | The same for every approver counted for a grant, whether or not their ballot is still in the table. |
| AccessGovernance.RequestWasOpened | warden/internal/accessrequest/requests.go:20-78 | Over every interleaving each request in the table goes back to an open by an eligible requester who did not hold the role, and has that open's requester, role, asset and seconds, the threshold and cap of the policy that governed it then, and the duration clamped from these. |
| AccessGovernance.OpeningStatus | warden/internal/accessrequest/requests.go:50-72 | The step that puts a request into the table puts it there as granted if its policy's threshold is zero and as pending otherwise. |
| AccessGovernance.GrantWasMinted | warden/internal/accessrequest/requests.go:282-297 | Over every interleaving each grant in the table goes back to the step that minted it, a self-service open or the counting of an approval that reached the threshold: it has that request's role, asset and requester, its window starts at that step's clock, and it is as long as that route gives. |
| AccessGovernance.AdmitsExactly | warden/internal/accessrequest/requests.go:130-178 | A locked vote passes its checks if and only if the request is pending, the voter is an approver other than the requester and an approval finds the requester eligible; the ballot is cast if and only if the voter exists and has none there. |
| AccessService.ReapedExactly | warden/internal/accessrequest/reaper.go:28-53 | After a reap exactly the grants past their window are revoked, and nothing else about any grant has changed. |
| AccessService.VoteRuns | warden/internal/accessrequest/requests.go:122-241 | An uninterrupted vote: the first failing check decides the error and nothing changes, otherwise the whole vote takes effect; this is a run of the interleaving machine. |
| AccessService.CancelRuns | warden/internal/accessrequest/requests.go:244-280 | The same for a cancellation. |
| AccessService.OpenRuns | warden/internal/accessrequest/requests.go:20-110 | The same for opening a request. |
| AccessService.EndRuns | warden/internal/accessrequest/grants.go:32-197 | The same for each way of ending grants, in any order of teardown, the three refusals of a single revoke included. |
| AccessService.EndCanRun | warden/internal/accessrequest/grants.go:32-197 | An order of teardown always exists, so every ending, refused or not, is a run of the machine. |
| AccessService.RunsKeep | warden/internal/accessrequest/service.go:5-19 | Whatever such a run leads to keeps the invariant. |
| AccessService.EndedExactly | warden/internal/accessrequest/grants.go:32-197 | An uninterrupted ending records, as expired or revoked by route, and tears down exactly the grants its WHERE clause matches. |
| AccessService.UserCascadeComplete | warden/internal/accessrequest/grants.go:87-116 | After the user cascade no grant of the user is unrevoked and no other grant is touched. |
| AccessService.RoleCascadeRemoves | warden/internal/accessrequest/grants.go:134-197 | The role cascade removes exactly the role's requests and grants and leaves every other as it was. |
| AccessService.RoleCascadeRecords | warden/internal/accessrequest/grants.go:142-156 | It records and tears down exactly the active grants of the role; one expired but not yet reaped gets no end event. |
| AccessService.Service.constructor | warden/internal/accessrequest/service.go:96-107 | A new service starts in the machine's start state. |
| AccessService.Service.RequestAccess | warden/internal/accessrequest/requests.go:20-110 | Error or new tables are exactly those of the uninterrupted request; AccessEffects.RequestAcceptedExactly and AccessEffects.RequestLeaves say when and what column by column. |
| AccessService.Service.Vote | warden/internal/accessrequest/requests.go:122-241 | Error or new tables are exactly those of the uninterrupted vote; AccessEffects.VoteRefusedExactly and AccessEffects.VoteLeaves say when and what column by column. |
| AccessService.Service.Cancel | warden/internal/accessrequest/requests.go:244-280 | Error or new tables are exactly those of the uninterrupted cancellation. |
| AccessService.Service.EnqueueEnded | warden/internal/accessrequest/grants.go:103-107 | The loop appends one end event per row and nothing else. |
| AccessService.Service.TerminateAll | warden/internal/accessrequest/grants.go:112-114 | The loop calls the terminator once per row. |
| AccessService.Service.RevokeGrant | warden/internal/accessrequest/grants.go:32-82 | Errors in order, otherwise exactly the uninterrupted ending of that one grant. |
| AccessService.Service.RevokeGrantsForUser | warden/internal/accessrequest/grants.go:87-116 | Exactly the uninterrupted ending of the user's grants, and their number. |
| AccessService.Service.DeleteRoleCascade | warden/internal/accessrequest/grants.go:134-197 | Exactly the uninterrupted ending of the role's grants with everything of the role removed. |
| AccessService.Service.DeleteCascade | warden/internal/postgres/migrate/migrations/0001_schema.sql:662-690 | The foreign keys take along exactly what refers to the deleted row. |
| AccessService.Service.DeleteUser | warden/internal/identity/service.go:329-336 | Exactly the machine's deletion of a user. |
| AccessService.Service.DeleteAsset | warden/internal/catalog/assets.go:461-487 | Exactly the machine's deletion of an asset from the workflow's tables. |
| AccessService.Service.ReapExpired | warden/internal/accessrequest/reaper.go:28-53 | Exactly the uninterrupted ending of expired grants, their number, and none left expired and unrevoked. |
| AccessEffects.VoteRefusedExactly | warden/internal/accessrequest/requests.go:122-178 | A vote is accepted if and only if the request is pending, the voter is an approver, not the requester and without a ballot there, and an approval finds the requester eligible; each error is given exactly, in the order of the checks. |
| AccessEffects.VoteLeaves | warden/internal/accessrequest/requests.go:169-241 | An accepted vote leaves its ballot, the request denied, granted or pending, and a grant if and only if the approval decides, for the request's role, asset and requester, starting now; audit rows are exactly the vote's and the grant's. |
| AccessEffects.DecidingVoteActivates | warden/internal/accessrequest/requests.go:282-297 | Right after the deciding vote the grant is active at t if and only if t is before the clock of the vote plus the window. |
| AccessEffects.RequestAcceptedExactly | warden/internal/accessrequest/requests.go:20-78 | A request is accepted if and only if the user is eligible and does not hold the role, a policy governs it and leaves a positive duration, role, user and asset exist, and, where approval is needed, no request of theirs for the same is pending. |
| AccessEffects.RequestLeaves | warden/internal/accessrequest/requests.go:56-110 | An accepted request leaves its row, field by field, and a grant if and only if the policy's threshold is zero, starting now; audit rows are exactly the request's and the grant's. |
| AccessEffects.SelfServiceActivates | warden/internal/accessrequest/requests.go:80-86 | Right after a self-service request the grant is active at t if and only if t is before the clock of the request plus the clamped duration. |
| AccessEffects.CancelExactly | warden/internal/accessrequest/requests.go:243-280 | A cancellation is accepted if and only if it is the requester's and the request is pending; it changes the status and nothing else. |
| AccessEffects.RevokeExactly | warden/internal/accessrequest/grants.go:32-82 | Revoking one grant is accepted if and only if it is there, the caller may, and it is unrevoked; that grant and no other is revoked, recorded and torn down. |
| AccessEffects.UserDeleted | warden/internal/identity/service.go:329-336 | Deleting a user takes exactly their requests with the ballots on them, their grants and their own ballots. |
| AccessEffects.AssetDeleted | warden/internal/postgres/migrate/migrations/0001_schema.sql:672-684 | Deleting an asset takes exactly the requests for it with their ballots, and the grants on it. |
| HashChain.DecodeEncode | warden/internal/audit/audit.go:39-59 | What is hashed can be read back by an independent reader: previous hash, type, actor, subject and details, in that order. |
| HashChain.EncodeInjective | warden/internal/audit/audit.go:39-59 | The hashed bytes determine the previous hash and the event. |
| HashChain.UuidTextInjective | warden/internal/audit/audit.go:51-55 | The dashed text of a uuid determines it. |
| HashChain.Verify | warden/internal/audit/audit.go:237-263 | Passes if and only if every row chains from the one before, and otherwise reports the first faulty row and which of its two hashes is wrong. |
| HashChain.TipPinsHistory | warden/internal/audit/audit.go:231-263 | Two tables that pass Verify and share their tip hash hold the same history, or the proof hands over a collision or a preimage of 32 zero bytes. |
| HashChain.VerifyTipAtLeast | warden/internal/audit/anchor.go:233-258 | Passes if and only if the anchored row is still there with the anchored hash. |
| HashChain.AnchorPins | warden/internal/audit/anchor.go:219-258 | Verify and VerifyTipAtLeast together pin the whole history up to the anchored row, or the proof hands over a collision or zero preimage. |
| HashChain.TruncationCaught | warden/internal/audit/anchor.go:32-37 | No proper prefix of a table has its anchored tip. |
| HashChain.AppendChained | warden/internal/audit/audit.go:88-124 | Appending keeps the chain valid. |
| OutboxSafety.EnqueueKeeps | warden/internal/audit/audit.go:133-151 | Enqueueing inside a domain transaction keeps the invariant. |
| OutboxSafety.DomainKeeps | warden/internal/audit/audit.go:126-132 | Committing a domain transaction, in any order of sequence numbers, keeps the invariant. |
| OutboxSafety.ChainKeeps | warden/internal/audit/audit.go:161-202 | Chaining a row, failing on a duplicate hash, and committing a batch keep the invariant. |
| OutboxSafety.ExactlyOnce | warden/internal/audit/audit.go:65-202 | Over every interleaving of domain transactions, appends, drains and rollbacks each committed event is in exactly one of outbox and log, in one place, unchanged, and the log as read back passes Verify. |
| OutboxSafety.DrainInOrder | warden/internal/audit/audit.go:153-202 | Over every interleaving, the commit of a drain appends behind the log as it then is, in increasing seq order, the rows that were the oldest of the outbox up to its limit at the step it read them, unchanged since, and removes exactly them. |
| OutboxOrigins.EnqueueLands | warden/internal/audit/audit.go:133-151 | An enqueue with details that are not JSON ends its transaction; any other adds one row with exactly the caller's type, actor, subject and canonical details, and changes nothing else. |
| OutboxOrigins.AppendLands | warden/internal/audit/audit.go:88-124 | The same for a direct append waiting for the lock. |
| OutboxOrigins.RecordWasAsked | warden/internal/audit/audit.go:133-151 | Over every interleaving each record committed, in the outbox or in the log goes back to an enqueue or append with its tag, type, actor and subject and with details of which its own are the canonical form. |
| OutboxOrigins.CommittedIsKept | warden/internal/audit/audit.go:126-132 | Over every interleaving whatever a transaction holds when it commits is in the outbox or in the log from then on. |
| AuditLogger.AppendRowsIs | warden/internal/audit/audit.go:181-197 | A chained batch lands in order, numbered consecutively, behind the log as it was. |
| AuditLogger.AppendRowsChained | warden/internal/audit/audit.go:181-197 | A chained batch keeps the chain valid. |
| AuditLogger.Logger.AppendLocked | warden/internal/audit/audit.go:88-124 | Succeeds if and only if the details are JSON and the entry hash is new; then the normalized event is chained behind the tail, otherwise nothing changes. AuditLogger.AppendedRow gives the new row column by column. |
| AuditLogger.AppendedRow | warden/internal/audit/audit.go:93-120 | The row an append leaves has the event's type, actor and subject, its details in canonical form, the next number, the tail's hash and the digest of both; the log before it is untouched. |
| AuditLogger.Logger.Enqueue | warden/internal/audit/audit.go:133-151 | Refused if and only if the details, or an empty object where there are none, are not JSON; otherwise one more outbox row at the next seq, with exactly the caller's type, actor and subject and the canonical form of those details. |
| AuditLogger.Logger.ListOldest | warden/internal/postgres/queries/audit.sql:32-36 | The oldest rows up to the limit, in increasing seq order. |
| AuditLogger.Logger.DrainOnce | warden/internal/audit/audit.go:161-202 | Chains the oldest rows, up to the batch size where that is a non-negative 32-bit number and up to the largest such number otherwise, in seq order and removes exactly them, or changes no table. |
| AuditLogger.Logger.DrainAll | warden/internal/audit/audit.go:208-229 | The inner loop ends; unless a batch fails the outbox is empty and all its rows are chained in seq order. |
| Anchors.KeysSort | warden/internal/audit/anchor.go:49-54 | Zero-padded keys sort exactly as their sequence numbers and differ exactly when those do. |
| Anchors.LatestAnchor | warden/internal/audit/anchor.go:170-195 | Returns the stored anchor with the highest sequence number, or nothing from an empty store. |
| Anchors.Anchorer.constructor | warden/internal/audit/anchor.go:113-129 | Startup takes over the highest stored anchor, or starts at zero if the store is empty or unreadable. |
| Anchors.Anchorer.RunTick | warden/internal/audit/anchor.go:131-164 | A tick checks the old reference against the table, or only warns if its own read fails, and then anchors the tip if it advanced, whatever the check said. |
| Anchors.RunMonotone | warden/internal/audit/anchor.go:145-164 | Over every run of ticks the anchored sequence number never decreases. |
| Anchors.AlarmExactly | warden/internal/audit/anchor.go:131-141 | The alarm is raised if and only if a check that goes through finds no row with the reference's number and hash. |
| Anchors.TickAnchors | warden/internal/audit/anchor.go:64-91 | A tick anchors the tip, as reference and as an object with its number, hash and time, if and only if read and write go through and the tip is past the reference; otherwise nothing changes. |
| Anchors.RunAnchors | warden/internal/audit/anchor.go:107-164 | Over every run a tip that was read and could be written is in the end not ahead of the reference; if it was past the reference then, its anchor is in the store as written then. |
| Anchors.RunKeepsAnchors | warden/internal/audit/anchor.go:20-25 | While the reference is ahead of the store, no run of ticks overwrites an anchor. |
| Anchors.AppendOnlyExactly | warden/internal/audit/anchor.go:119-129 | No tick overwrites an anchor if and only if nothing stored is above the reference; after a startup that could not read a non-empty store, re-putting the same tip at another time does. |
| Anchors.FailedRestartOverwrites | warden/internal/audit/anchor.go:119-129 | From an empty store and any table: a tick, a restart whose startup read fails, and a tick at another time leave only the second anchor, under the first one's key. |
| Anchors.RunSynced | warden/internal/audit/anchor.go:101-106 | After a successful startup the latest anchor in the store is always the in-memory reference, so a restart recovers the highest sequence number ever stored. |
| Anchors.SilenceMeansAppendOnly | warden/internal/audit/anchor.go:93-164 | If no alarm is raised, the last check's read went through on a chained table, and every tick that replaced the reference had its check go through and read its tip off a chained table that was only appended to since that check, then every history ever anchored is still the beginning of the table, whatever happened in between, or the proof hands over a collision or zero preimage. |
| Anchors.TrustedChecked | warden/internal/audit/anchor.go:131-160 | At a tick that replaces the reference the table of the check need not be known to be chained: it follows from the other conditions. |
| Anchors.TrustNeeded | warden/internal/audit/anchor.go:131-160 | Each remaining condition is needed where it is asked for, an unverified table under the check and one under the tip apart: for any digest and any anchored table there is a silent run lacking just that one after which the table does not begin with the anchored history. |
| Throttle.KeyTextInjective | warden/internal/auth/throttle.go:82-83 | Email and IP keys never collide. |
| Throttle.ShiftIsBackoff | warden/internal/auth/throttle.go:62-74 | The clamped shift equals min(30 s, 2^(failures - free) s). |
| Throttle.JudgeMonotone | warden/internal/auth/throttle.go:45-75 | More failures never mean a shorter delay or a lifted block. |
| Throttle.RetryZero | warden/internal/auth/throttle.go:97-111 | Retry-After is zero exactly if neither key has time left in its window. |
| Throttle.RetryWithoutBlock | warden/internal/auth/throttle.go:97-111 | It is positive after a single failure although nothing is blocked. |
| Throttle.WindowCounts | warden/internal/auth/throttle.go:87-95 | A key's counter holds the time of some failure of the key and the number of its failures since, all within the window and with no success among them. |
| Throttle.WindowNone | warden/internal/auth/throttle.go:121-128 | A key has no counter if and only if the last event that touches it is a success, or none does. |
| Throttle.BlockedExactly | warden/internal/auth/throttle.go:45-85 | A login is blocked if and only if its email has fifteen failures in an open window or its address sixty, either alone being enough; then the delay is thirty seconds. |
| Throttle.FreeExactly | warden/internal/auth/throttle.go:45-85 | It is neither blocked nor delayed if and only if its email has fewer than five failures in an open window and its address fewer than twenty. |
| Throttle.Throttle.constructor | warden/internal/auth/throttle.go:40-43 | A new throttle has an empty history. |
| Throttle.Throttle.Eval | warden/internal/auth/throttle.go:45-75 | The verdict is that of the pure failure history, whether or not the entry is evicted on the way. |
| Throttle.Throttle.Check | warden/internal/auth/throttle.go:77-85 | The stricter of the two keys' verdicts on the pure history; eviction is unobservable. Throttle.WindowCounts, Throttle.BlockedExactly and Throttle.FreeExactly say what that verdict is. |
| Throttle.Throttle.RetryAfter | warden/internal/auth/throttle.go:97-111 | The longer of the two remaining windows of the pure history. |
| Throttle.Throttle.Fail | warden/internal/auth/throttle.go:87-119 | Adds one failure to the history of both keys. |
| Throttle.Throttle.Success | warden/internal/auth/throttle.go:121-127 | Adds one success to the history, closing both windows. |
| Throttle.Throttle.Cleanup | warden/internal/auth/throttle.go:129-139 | Drops exactly the stale entries and leaves the history, so no later answer changes. |
| IdleTokens.TokenService.Validate | warden/internal/auth/tokens.go:82-111 | Answers and writes as specified; IdleTokens.AnsweredExactly says over every run from the issue when that answer is the user and when it is a refusal. |
| IdleTokens.IssuedAccepted | warden/internal/auth/tokens.go:62-111 | An issued token is accepted for its user up to its expiry as long as it is used with no gap above the safe one, whatever happens to other tokens. |
| IdleTokens.AnsweredExactly | warden/internal/auth/tokens.go:62-111 | Over every run of calls after an issue that do not issue the hash again, a validation names the user it was issued to if and only if it was not revoked, the issue time plus the lifetime is not past, and, with an idle window, the last use on record is within it; otherwise it is refused. |
| IdleTokens.IssuedRow | warden/internal/auth/tokens.go:62-111 | Over the same runs the token is in the table if and only if it was not revoked, with the user and expiry of its issue and the latest use in time that was due to be recorded and was. |
| IdleTokens.ExpiredRefused | warden/internal/auth/tokens.go:91-94 | An expired token is refused, whatever was done with it meanwhile. |
| IdleTokens.IdleRefused | warden/internal/auth/tokens.go:95-99 | With an idle window, a token is refused once its issue and every validation of it are longer ago than that. |
| IdleTokens.RevokedForever | warden/internal/auth/tokens.go:113-119 | A revoked token is refused by every later validation until its hash is issued again. |
| IdleTokens.SafeGapExactly | warden/internal/auth/tokens.go:95-109 | Runs with gaps up to g are never refused for idleness before absolute expiry if and only if g is at most the idle window less the touch interval, which is at least three quarters of the window. |
| IdleTokens.RunRejected | warden/internal/auth/tokens.go:92-99 | A token refused once is refused by every later call. |
| IdleTokens.TouchesBounded | warden/internal/auth/tokens.go:37-39 | Over any calls within a span the row is written at most span / interval + 1 times. |
| LoadBalancer.LoadCounters.constructor | gateway/src/lb.rs:10-13 | No guards, no counts. |
| LoadBalancer.LoadCounters.Get | gateway/src/lb.rs:15-18 | The count is the number of live guards; absent means none. |
| LoadBalancer.LoadCounters.Acquire | gateway/src/lb.rs:20-33 | One more live guard, counted. |
| LoadBalancer.LoadCounters.Release | gateway/src/lb.rs:40-60 | One live guard less, the entry removed with the last one. |
| LoadBalancer.Pick | gateway/src/lb.rs:62-82 | A worker of minimum load among those whose capacity is not positive or not reached, and none only if there is no such worker. |
| LoadBalancer.ReadCapped | gateway/src/lb.rs:68-80 | Reading one worker's load keeps load plus contenders within the cap. |
| LoadBalancer.TakeKeeps | gateway/src/lib.rs:190-204 | Acquiring turns a contender into load without changing the sum. |
| LoadBalancer.LoadBounded | gateway/src/lib.rs:190-204 | Under every interleaving, read by read, the counter is the number of live guards, and with at most P handlers between pick and acquire a capped worker never exceeds capacity + P - 1. |
| LoadBalancer.BoundAttained | gateway/src/lib.rs:190-204 | For every capacity and every P there is an interleaving that reaches capacity + P - 1. |
| RequestHead.OverlapSuffices | gateway/src/lib.rs:45-60 | Going back three bytes finds a terminator exactly when a full rescan would. |
| RequestHead.ReadRequestHead | gateway/src/lib.rs:45-74 | For every chunking, and whether the stream ends or breaks, outcome and rest of the stream equal those of a reader that rescans everything. |
| RequestHead.HeadIs | gateway/src/lib.rs:41-74 | The head and the rest are the whole stream, the head is at most MAX_HEADER + 1024 bytes, and it is terminated unless the stream ended; a failed read means that the stream broke before any terminator. |
| RequestHead.StopsAtFirst | gateway/src/lib.rs:45-74 | Without its last read a terminated head has no terminator. |
| RequestHead.PeekAndReplay | gateway/src/terminal.rs:174-212 | The replaying stream delivers the stream as it was before the peek. |
| Streams.PrefixedStream.constructor | gateway/src/terminal.rs:187-195 | The contents are the prefix followed by the live stream. |
| Streams.PrefixedStream.Read | gateway/src/terminal.rs:197-212 | Each read delivers the next part of prefix and live stream together, and is empty only at the end, where it fails if the live stream breaks. |
| Streams.Stream.ReadExact | gateway/src/terminal.rs:246-247 | Exactly n bytes whatever the chunk boundaries, or none at a premature end or break. |
| Frames.ReadLenFrame | gateway/src/terminal.rs:238-249 | Over any chunking: exactly the frame parsed off the byte string, and exactly its bytes consumed; lengths out of range, premature ends and breaks are errors. |
| Frames.ParseExactly | gateway/src/terminal.rs:238-249 | A length of zero or above a megabyte, and no other, is invalid; any other waits for exactly that many bytes. |
| Frames.WriteLenFrame | gateway/src/terminal.rs:279-292 | Accepts exactly lengths from one byte to a megabyte and then appends prefix and frame. |
| Frames.ParseWritten | gateway/src/terminal.rs:238-292 | A written frame is read back whole, leaving exactly what follows it. |
| Frames.RoundTrip | gateway/src/terminal.rs:238-292 | Any list of frames in range is read back exactly, then the end of the stream or its break. |
| Frames.ParsedWasWritten | gateway/src/terminal.rs:238-292 | A frame is read only off bytes that writing it produces. |
| Paging.ClampPageSize | warden/internal/apipage/page.go:24-31 | A page size from 1 to 100 is taken as it is, any other becomes 50. |
| Paging.BeyondIsRest | warden/internal/postgres/queries/access_requests.sql:31-41 | From a cursor after p rows of the listing the query's predicate sees exactly the rest. |
| Paging.ListPaged | warden/internal/accessrequest/review.go:214-250 | A page is the filter of the rows scanned, and its cursor follows the last row scanned, full pages only; a token without an id is refused. |
| Paging.CollectPages | cli/cmd/paging.go:5-19 | Over an unchanging table the loop ends with exactly the filter of the whole listing, in order, even when whole pages are filtered away. |

## Left out

- Isolation races between separate catalog transactions: each catalog write is one serial step; only the access workflow and the audit outbox are interleaved.
- Capability gates in front of the operations (`RequireCap` and its kin): they only refuse, so they can only shorten the runs considered.
- Requester and approver roles of a policy as a global containment invariant: only moves check them.
- At most one active grant per user, role and asset: eligibility is checked before the transaction, so the code does not promise it.
- Emails and passwords of users, deactivation, group membership writes, secret administration, asset configuration, and the names of roles, groups and policies: they would only add easy members.
- Lower-casing of names: names are taken as already canonical.
- Catalog writes that touch one row and check nothing (asset create and delete, role create, users, groups, rewrites, policy subjects, row deletes, policy edits) are modelled as transactions on values, not as methods of the class; update in place is not captured for these.
- Delegation on a tree that moves meanwhile, and the approvals between a request and its grant: `Delegation` mints any pending request on a fixed tree.
- Insertion order of audit rows within one access transaction: the machine counts audit rows as a multiset.
- A request opened while another transaction is resolving the conflicting pending one: the model refuses it at once where the database would wait for that transaction.
- The session teardown by asset before an asset is deleted: the terminator calls counted are those per grant.
- The actor recorded with a revocation, and the lock that naming one takes on the actor's row.
- JSON, base64 and uuid parsing, and the normaliser for JSON text, which is any idempotent partial function.
- SHA-256 itself, TLS, token signing, password hashing, certificates and sealing.
- The gateway's relay loop, its pumps and its timers: the frame and head readers are modelled run to completion.
- LoadBalancer.Pick: does not model 32-bit overflow of a load counter; loads are assumed to fit.
- The Kubernetes path of the gateway, which acquires a guard without a pick.
- IdleTokens.SafeGapExactly: assumes that touches go through; a lost touch only leaves the recorded last use older.
- EntitledLoginsFor, ConcreteQualifiers and ReadAllowed: short filters over the matcher.
- RPC handlers, the command line, the web interface, configuration and wiring.
