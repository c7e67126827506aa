# A verified model of the multi-tenant service's domain logic

The project models four protocols of the service as state machines, and proves what every
interleaving of their requests keeps. Where the program changes rows, buckets or blobs in place, a
class does the same, and each of its methods is proved to compute the function the theorems are about.

* **Organization authority** (`Authz`, `OrgStore`, `OrgCalls`, `OrgSafety`, `OrgAuthority`, `OrgRank`,
  `OrgInvitations`, `OrgTenancy`, `OrgBatch`, `OrgJoin`, `OrgRegistration`, `OrgAnswers`, `OrgDb`,
  `OrgService`, `SystemRoles`, `SystemRoleRuns`). A request is a few unlocked reads and one transaction.
  `OrgStore.Apply` is the transactions, `OrgCalls.Next` the reads, and `OrgCalls.Run` any number of
  overlapping requests: who moves next, the clock, new ids and new tokens are data in the list of actions.
* **Accounts, devices, codes and sessions** (`Accounts`, `AccountSafety`, `AccountTraces`,
  `AccountGuesses`, `AccountBearer`, `AccountAnswers`, `AccountCodes`, `AccountService`, `Codes`,
  `Tokens`). Sign-in reads the account once and signs its token later. Over every history of an
  installation from the empty one on, `AccountTraces` says what every token, change and redeemed code
  was asked for with, `AccountBearer` which tokens the bearer check honours, `AccountSafety` how a
  device came to be trusted; `AccountAnswers` says what each request alone answers and changes.
* **The rate limiter** (`Limiter`). The functions work on plain values with the clock counted in
  tokens; `TokenLimiter` holds a map of bucket objects, as the program does, and its methods are proved
  to compute those functions.
* **Files and photos** (`Blobs`, `Files`, `FileSafety`, `FileBytes`, `FileDocuments`, `FileQuiet`,
  `FilePhotos`, `FileService`).
  Blob, row and pointer are written in separate steps; any step may fail without effect and a request
  may stop anywhere.

`Address` and `Sorting` are small helpers.

The transactions follow the repository's Postgres store. It is modelled with each transaction atomic.
Those behind the owner guard, and the deletion of a role, lock the organization row `FOR UPDATE`, which
conflicts with the key-share lock every insert that refers to the organization takes; where a missing
lock makes a difference, it is listed at the end. Statements outside a transaction, and the two
statements of `AttachAvatar` and `DetachAvatar`, are separate steps.

## Where the code and its own documentation differ

The model follows the code.

* An invitation row outlives its acceptance, and the unique index on organization and address covers
  it, so an address that joined by invitation and left cannot be invited again
  (`OrgInvitations.NoSecondInvitation`).
* `InviteMember` says a deleted account does not occupy its address; the edge predicate it uses does not
  filter deleted accounts, so it does (`OrgStore.AddressJoined`).
* `ConsumePasswordReset` and `ConsumeEmailChange` update by id without asking whether the code is still
  open, so two overlapping verifications of one code both go through (`Codes.ResetRedeemedTwice`; exactly
  when, `Codes.RedeemedTwiceIff`).
  Sign-in codes do ask (`Codes.TwoFactorRedeemedOnce`).
* `AttachAvatar` and `DetachAvatar` are described as swaps; they read and write in two statements
  without a lock, so two overlapping photo changes can leave one photo behind
  (`FileQuiet.PhotosCanBeLeftBehind`; exactly which, `FilePhotos.PhotosLeft`). The pointer still never
  dangles.
* `InviteMember` and `ReissueInvitation` read the invitation back with its organization after they have
  committed. For a retired organization that read finds nothing: the row or the new token is written and
  the caller is told not found (`OrgSafety.RefusedChangesNothing`, `OrgBatch.RetiredBatchStops`).
* `InvitationsForEmail` says only offers of live organizations are listed; its edge predicate does not
  filter retired ones, and reading such an offer back fails, so an account with one cannot join the
  default organization (`OrgRegistration.OfferStopsJoining`).
* A platform key misplaced in an organization role shows in the snapshot and is never enforced
  (`Authz.MisplacedKeyIsNotEnforced`); no run of requests can put one there (`OrgRank.RunKeepsScope`).
* Appointing a suspended member owner succeeds and leaves them suspended
  (`OrgSafety.AppointedIsActiveIff`).
* Authorization, the check before revoking one's own platform role, and the deletion are separate
  statements, so overlapping revocations can leave nobody (`SystemRoleRuns.LastOneGoesIff`,
  `SystemRoleRuns.EndangeredIff`).

## Model

| member | source | states |
|---|---|---|
| OrgSafety.LastOwnerKept | internal/domain/orgs/service.go:397-444 | However many requests overlap, an organization with an active owner whose account is live keeps one, as long as no account is deleted |
| OrgSafety.OnlyDeletionEndsOwnership | internal/domain/orgs/service.go:397-409 | The one step that can leave an organization without an owner is deleting the account of every owner it has left |
| OrgSafety.LosingFlagStaysRight | internal/domain/orgs/service.go:427-444 | The losing flag fixed before the transaction still says, whenever the guard runs, whether the new roles lack the owner role |
| OrgSafety.GuardedKeepsAnOwner | internal/store/repositories/orgs.go:1222-1259 | Each guarded change leaves at least one owner, and the lemma produces one |
| OrgSafety.LastOwnerRefusedIff | internal/store/repositories/orgs.go:369-500 | A guarded change is refused for the last owner exactly when it takes the capability from the only owner; it goes through exactly when the membership is there otherwise, and moves that row alone |
| OrgSafety.RefusedChangesNothing | internal/store/repositories/invitations.go:82-86 | A refused transaction leaves the store unchanged with exactly three exceptions, answered as not found: a deleted account joined, and an invitation sent or reissued for a retired organization |
| OrgSafety.AppointedIsActiveIff | internal/domain/orgs/provision.go:307-339 | A successful appointment leaves the account an active owner if and only if it was not already a suspended member |
| OrgSafety.ShippedRolesSurvive | internal/domain/orgs/service.go:306-308 | No run deletes, rekeys or rewrites a shipped role |
| OrgSafety.DeletingARoleTakesNothingAway | internal/domain/orgs/service.go:332-348 | A deletion that goes through, whatever was assigned meanwhile, changes no membership, no member's permissions and no other role; invitations lose that role only |
| OrgSafety.DeleteRefusedWhileHeld | internal/domain/orgs/service.go:411-425 | A custom role of a live organization is refused deletion exactly while somebody holds it |
| OrgSafety.RunStaysSane | internal/domain/orgs/repository.go:120-190 | Every reachable store keeps its foreign keys, its tenant-scoped role assignments and its unique indexes |
| OrgStore.ApplyKeepsLinked | internal/store/repositories/invitations.go:120-138 | No transaction leaves a membership or invitation naming a role that is missing or another organization's |
| OrgStore.ApplyKeepsUnique | internal/store/repositories/orgs.go:299-367 | Every transaction keeps one membership per account and organization, one role per key, one invitation per hash and per address |
| OrgAuthority.NoPrivilegeGrowth | internal/domain/authz/authz.go:414-426 | No run of grant-taking operations, acceptances, refusals and departures adds a permission to an organization's authority, with grants resolved at any earlier moment |
| OrgAuthority.NoGrantExceedsTheStart | internal/domain/orgs/service.go:466-481 | No grant resolved during such a run holds a permission that was not carried in the organization at its start |
| OrgRank.RankIsKept | internal/domain/orgs/service.go:446-464 | While every caller lacks some permission of a shipped role, no other caller's request, at any stage, changes a membership that held the role at the start |
| OrgRank.RoleEditIgnoresRank | internal/domain/orgs/service.go:295-325 | For every permission list, editing a role goes through if and only if the role is the organization's own and each permission is organization-scoped and the caller's; who holds it plays no part, and it then carries exactly those |
| OrgRank.RankIsLostThroughRolesOnly | internal/domain/orgs/service.go:295-325 | Under the hypotheses of RankIsKept, a permission the member has lost was carried by no shipped role, and every role of theirs that carried it is still held and has been rewritten |
| OrgRank.RunKeepsScope | internal/domain/orgs/service.go:352-377 | No run puts a platform permission into an organization role, so no organization grant ever holds one |
| OrgRank.DecisionIsTheGrant | internal/store/repositories/authz.go:25-66 | Authorize, on rows describing the store, grants an organization permission exactly when the run's grant holds it, and hands out that grant |
| OrgTenancy.NonInterference | internal/domain/orgs/repository.go:164-186 | Two stores agreeing on one organization and the accounts give the same answers and the same organization after any run under its grants, which leaves every row of every other organization alone |
| OrgTenancy.ApplyAlike | internal/domain/authz/authz.go:103-116 | One transaction for an organization answers and changes its rows alike in both stores |
| OrgTenancy.OthersUntouched | internal/store/repositories/orgs.go:699-747 | One transaction leaves every row of every other organization as it was |
| OrgTenancy.NextAgrees | internal/domain/orgs/service.go:453-481 | Every unlocked read made for an organization sees only that organization |
| OrgInvitations.InvitationIsUsedOnce | internal/store/repositories/invitations.go:191-271 | However many requests race for it, an invitation is accepted at most once |
| OrgInvitations.AcceptedByItsAddress | internal/domain/orgs/invitation.go:81-92 | An acceptance makes one membership with exactly the stored roles, for the account whose address, when its request began, was normalised the invited one; it is so still unless a change of it went through since that moment |
| OrgInvitations.AcceptingJoins | internal/store/repositories/invitations.go:191-271 | Accepting adds exactly one membership, active, with the roles stored on the invitation, and it is that account's only one there |
| OrgInvitations.OldTokenIsDead | internal/domain/orgs/invitation.go:189-208 | After a reissue, withdrawal, refusal or acceptance that took effect the token used until then resolves to nothing at any later moment and under any clock; this includes a reissue for a retired organization, which is answered as not found |
| OrgInvitations.InvitationDescends | internal/store/repositories/invitations.go:191-271 | Until accepted an invitation keeps its organization and address and loses exactly the roles that were deleted |
| OrgInvitations.AcceptedForGood | internal/store/repositories/invitations.go:381-447 | An accepted invitation is never accepted, refused, withdrawn or reissued again |
| OrgInvitations.PendingOrExpired | internal/domain/orgs/invitation.go:116-143 | A token is reported expired if and only if its invitation ended strictly before now; one ending exactly now is answered as unknown; success means it was pending |
| OrgInvitations.InvitedIff | internal/store/repositories/invitations.go:20-87 | Inviting succeeds if and only if the organization is live, the address is usable, every role is here and within the grant, and the address neither belongs nor was ever invited; the row is written also when the organization is retired |
| OrgInvitations.NoSecondInvitation | internal/store/repositories/invitations.go:60-70 | An accepted invitation blocks every later invitation of the same address, whoever left since |
| OrgBatch.BatchAcceptedIff | internal/domain/orgs/invite_many.go:67-84 | A batch is accepted if and only if it names one to fifty addresses, none empty and no two alike once normalised |
| OrgBatch.BatchGoesThrough | internal/domain/orgs/invite_many.go:90-112 | In a batch whose checks passed every address gets the answer it would have got alone; it lets the batch go on if and only if the organization is live or the address is taken, and a row is written if and only if it is not taken |
| OrgBatch.RetiredBatchStops | internal/domain/orgs/invite_many.go:106-110 | On a retired organization the batch stops at the first address that is not taken, with that one invitation written and answered as not found |
| OrgBatch.OutcomesAreOneOrTheOther | internal/domain/orgs/invite_many.go:34-46 | Each outcome is an invitation or an already-member refusal, never both, and no address is answered twice |
| OrgService.Service.InviteMany | internal/domain/orgs/invite_many.go:61-115 | A refused batch writes nothing; otherwise the store is the fold of single invitations and outcomes stand at their addresses' positions; a stop elsewhere is a single invitation's own answer |
| OrgService.Service.CheckBatch | internal/domain/orgs/invite_many.go:67-84 | The loop that fills the seen map gives the first complaint in order |
| OrgService.Service.SetMemberStatus | internal/domain/orgs/service.go:111-140 | The method is the SetMemberStatus call of the interleavings, run alone |
| OrgService.Service.RemoveMember | internal/domain/orgs/service.go:142-168 | Likewise, including the membership whose account is gone |
| OrgService.Service.SetMemberRoles | internal/domain/orgs/service.go:184-219 | Likewise: rank, then each role, then the losing flag, then the transaction |
| OrgService.Service.CreateRole | internal/domain/orgs/service.go:237-259 | The method is the CreateRole call run alone, which OrgAnswers.CreateRoleIff describes |
| OrgService.Service.SetRolePermissions | internal/domain/orgs/service.go:295-325 | Likewise |
| OrgService.Service.DeleteRole | internal/domain/orgs/service.go:332-348 | Likewise |
| OrgService.Service.Invite | internal/domain/orgs/invitation.go:39-68 | Likewise |
| OrgService.Service.AcceptInvitation | internal/domain/orgs/invitation.go:81-92 | Likewise |
| OrgService.Service.DeclineInvitation | internal/domain/orgs/invitation.go:98-105 | Likewise |
| OrgService.Service.PendingInvitation | internal/domain/orgs/invitation.go:123-143 | The two lookups find the pending invitation, or say whether the token expired |
| OrgService.Service.Reissue | internal/domain/orgs/invitation.go:189-208 | The method is the call run alone |
| OrgService.Service.Leave | internal/domain/orgs/leave.go:28-46 | The loop over one's own memberships removes the named one, or finds nothing |
| OrgService.Service.GrantOwnership | internal/domain/orgs/provision.go:319-339 | The method is the call run alone, member or not |
| OrgService.Service.AppointOwner | internal/domain/orgs/provision.go:307-316 | The method is the call run alone; a retired organization is refused |
| OrgAnswers.CreateRoleIff | internal/domain/orgs/service.go:237-259 | A role is made if and only if its trimmed key is valid and free there, the organization exists and every permission is organization-scoped and the caller's; then exactly it is added, custom, with exactly these permissions, and otherwise nothing changes |
| OrgAnswers.RolesWithinGrant | internal/domain/orgs/service.go:237-325 | In every run, each role stored or rewritten carries exactly the permissions its request was begun with, all organization-scoped and in the grant the middleware had resolved for it |
| OrgAnswers.StatusIff | internal/domain/orgs/service.go:111-137 | A status is set exactly for a member of the live organization the caller may change, to active or suspended, unless it suspends the only owner; that row alone changes |
| OrgAnswers.RemoveIff | internal/domain/orgs/service.go:142-179 | A membership goes exactly when it is the live organization's, not the only owner's, and, while its account is live, one the caller may change |
| OrgAnswers.RolesIff | internal/domain/orgs/service.go:184-218 | Roles are replaced exactly for a member the caller may change, by the organization's own roles within the grant, unless that takes ownership from the only owner |
| OrgAnswers.LeaveIff | internal/domain/orgs/leave.go:28-58 | Leaving removes exactly one's own membership in a live organization, unless one is its only owner |
| OrgAnswers.AppointIff | internal/domain/orgs/provision.go:307-339 | Appointing in a live organization succeeds for every live account and leaves its membership with the owner role and no other |
| OrgAnswers.DeleteRoleIff | internal/domain/orgs/service.go:332-348 | A custom role is deleted if and only if nobody holds it; invitations lose it and nothing else changes |
| OrgAnswers.InvitedRow | internal/domain/orgs/invitation.go:39-73 | An invitation that is written carries the normalised address, the token's hash, seven days of life and exactly the roles asked for |
| OrgAnswers.ReissueIff | internal/domain/orgs/invitation.go:189-213 | An unaccepted invitation of the organization gets the new token and a new life; any other is not found |
| OrgAnswers.WithdrawIff | internal/domain/orgs/invitation.go:179-184 | An unaccepted invitation of the organization goes; any other is not found |
| OrgAnswers.AcceptIff | internal/domain/orgs/invitation.go:81-92 | A pending invitation is accepted exactly by its address, for an account that does not belong yet, with the roles stored; otherwise nothing changes |
| OrgAnswers.DeclineIff | internal/domain/orgs/invitation.go:98-107 | A pending invitation goes |
| OrgAnswers.NothingPending | internal/domain/orgs/invitation.go:123-160 | A token with nothing pending changes nothing |
| OrgJoin.JoinsAsMemberIff | internal/domain/orgs/provision.go:162-188 | Registration adds one plain membership if and only if the account is not a member, no offer here is open and every open offer can be read back; otherwise it writes nothing and answers accordingly |
| OrgJoin.OfferSurvivesJoining | internal/domain/orgs/provision.go:151-161 | An open offer keeps its account from being joined, so it can still be accepted with exactly the roles it promised |
| OrgRegistration.MemberCannotAccept | internal/domain/orgs/provision.go:198-202 | In every run, until a membership is removed its account accepts no offer of that organization, whenever made; an open one is answered already-member |
| OrgRegistration.OfferStopsJoining | internal/store/repositories/invitations.go:164-189 | In every run, a registration that reads an open offer here ends there and one that reads an offer of a retired organization answers not found; neither commits anything, ever |
| OrgRegistration.JoinedAfterLooking | internal/domain/orgs/provision.go:157-188 | In every run, a membership a registration asks for follows its three reads in order: no membership here, no open offer here or unreadable one, and the plain role, which is all it carries |
| OrgJoin.EnsuringIsIdempotent | internal/domain/orgs/provision.go:111-144 | Whatever others commit meanwhile, ensuring the default organization leaves exactly one live one of its name, protected and with the shipped roles if made here, and ensuring again finds it and writes nothing |
| OrgJoin.LoserFindsTheWinner | internal/domain/orgs/provision.go:135-141 | A creation refused because the name is taken writes nothing; the second look answers not found if and only if the holder is gone again, and finds a protected winner whatever is committed in between |
| OrgRegistration.ProtectedForGood | internal/store/repositories/orgs.go:109-132 | A protected organization is live and unchanged after every run |
| OrgRegistration.DefaultForGood | internal/domain/orgs/provision.go:100-144 | Once made, the default organization is the one found by every later start, after every run and whatever others commit during that start, which writes nothing |
| OrgService.Service.HasRowIn | internal/domain/orgs/provision.go:203-227 | The two search loops find a membership, an open offer, neither, or an offer that cannot be read |
| OrgService.Service.EnsureDefaultOrganization | internal/domain/orgs/provision.go:111-144 | The look, the creation and, after a taken name, the second look, with whatever others commit in between, are the ensuring function on the tables |
| OrgService.Service.JoinDefaultOrganization | internal/domain/orgs/provision.go:162-188 | The default organization is ensured, then the registration call of the interleavings is run alone in it |
| OrgService.Service.EnsureCanAffectMember | internal/domain/orgs/service.go:453-464 | Oneself is always allowed, anybody else only when their catalog permissions are all the caller's |
| OrgService.Service.EnsureRolesAreGrantable | internal/domain/orgs/service.go:466-481 | The first role that is not here or exceeds the grant refuses the request |
| OrgService.Service.DedupePermissions | internal/domain/orgs/service.go:483-493 | The loop keeps the first occurrence of each permission |
| OrgService.Service.EnsureOrganizationScoped | internal/domain/orgs/service.go:364-377 | The loop reports the first unknown or platform permission |
| OrgCalls.MayStoreIff | internal/domain/orgs/service.go:364-377 | A permission list may be stored if and only if every entry is organization-scoped and held by the caller |
| OrgCalls.AssignableIff | internal/domain/orgs/service.go:466-481 | Roles may be handed out if and only if all are the organization's and carry only known permissions the caller holds |
| OrgDb.Tables.ApplyOwnerGuard | internal/store/repositories/orgs.go:1248-1259 | The rule is asked on the state read inside the transaction |
| OrgDb.Tables.OwnedRoleIDs | internal/store/repositories/invitations.go:120-138 | Counting the owned ids says whether the organization owns all of them |
| OrgDb.Tables.SetMemberStatus | internal/store/repositories/orgs.go:369-422 | The statements, in order, are the transaction |
| OrgDb.Tables.RemoveMember | internal/store/repositories/orgs.go:424-459 | Likewise |
| OrgDb.Tables.ReplaceMemberRoles | internal/store/repositories/orgs.go:461-500 | Likewise, with the deleted assignments put back when a role is not the organization's |
| OrgDb.Tables.AddMember | internal/store/repositories/orgs.go:299-367 | Likewise; a deleted account's row is committed and then answered as not found |
| OrgDb.Tables.CreateOrganization | internal/store/repositories/orgs.go:885-945 | Likewise, with the shipped roles materialised one after another |
| OrgDb.Tables.CreateRole | internal/store/repositories/orgs.go:620-664 | Likewise |
| OrgDb.Tables.ReplaceRolePermissions | internal/store/repositories/orgs.go:749-785 | Likewise |
| OrgDb.Tables.DeleteRole | internal/store/repositories/orgs.go:699-747 | Likewise, with the cascade through the invitations row by row |
| OrgDb.Tables.InviteMember | internal/store/repositories/invitations.go:20-87 | Likewise, with the new row taken back when a role is not the organization's |
| OrgDb.Tables.ReissueInvitation | internal/store/repositories/invitations.go:410-447 | Likewise |
| OrgDb.Tables.WithdrawInvitation | internal/store/repositories/invitations.go:381-408 | Likewise |
| OrgDb.Tables.DeclineInvitation | internal/store/repositories/invitations.go:293-314 | Likewise |
| OrgDb.Tables.AcceptInvitation | internal/store/repositories/invitations.go:191-271 | Likewise |
| Authz.SnapshotAgrees | internal/domain/authz/authz.go:234-277 | An organization permission is listed for an organization, and a system permission listed, exactly when Authorize grants it, whatever duplicate, stale or misplaced keys are stored |
| Authz.MisplacedKeyIsNotEnforced | internal/domain/authz/authz.go:301-320 | A platform key stored in an organization role is listed and never granted |
| Authz.GrantIsTheWholeScope | internal/domain/authz/authz.go:301-374 | A granted decision carries exactly the permissions that would be granted in the same scope |
| Authz.TakeSnapshot | internal/domain/authz/authz.go:234-277 | The snapshot is sorted, free of duplicates and stale keys, and complete |
| Authz.SystemHalf | internal/domain/authz/authz.go:249-277 | The loop over role keys keeps the shipped system roles and the union of their permissions |
| Authz.Authorize | internal/domain/authz/authz.go:301-345 | The chain of checks and loops reaches the decision stated without them |
| Authz.AuthorizeSystem | internal/domain/authz/authz.go:347-374 | Likewise at system scope |
| Authz.NewGrant | internal/domain/authz/authz.go:83-92 | A grant holds exactly the catalog keys it was given |
| Authz.Covers | internal/domain/authz/authz.go:132-140 | True if and only if every permission asked about is held |
| Authz.CanGrantIff | internal/domain/authz/authz.go:414-426 | The escalation rule passes if and only if every requested key is known and held |
| Authz.EnsureCanGrant | internal/domain/authz/authz.go:414-426 | The loop reports the first unknown or missing key in order |
| Authz.EnsureCanAffect | internal/domain/authz/authz.go:400-412 | The loop refuses if and only if the target holds a catalog permission the caller lacks |
| Authz.GrantVersusAffect | internal/domain/authz/authz.go:400-426 | The two rules differ exactly on stale keys |
| Authz.Sanitize | internal/domain/authz/permission.go:215-227 | Exactly the catalog keys among the input, each once |
| Authz.InScope | internal/domain/authz/permission.go:196-205 | Exactly the catalog's permissions of that scope |
| Authz.CatalogIndexed | internal/domain/authz/permission.go:114-150 | The catalog's halves are exactly the permissions of each scope |
| Authz.ShippedRoles | internal/domain/authz/role.go:50-118 | Owner means every organization permission, platform_admin every system one, admin all but deletion, and member and viewer no more than admin |
| SystemRoleRuns.AnAdministratorRemains | internal/domain/orgs/system_roles.go:35-77 | With each request authorized, checked and written before the next, an installation with an administrator keeps one |
| SystemRoleRuns.InTurnKeepsOne | internal/domain/orgs/system_roles.go:35-61 | In every run of separate authorizations, checks and writes in which requests do not overlap, an administrator remains |
| SystemRoleRuns.LastOneGoesIff | internal/domain/orgs/system_roles.go:44-61 | In every such run, overlapping or not, the step that leaves nobody is exactly the write of a revocation of the only administrator that was let through on account of another administrator who has lost the role since |
| SystemRoleRuns.EndangeredIff | internal/domain/orgs/system_roles.go:49-60 | The writes pending at a moment can leave nobody if and only if every administrator left has a revocation pending that was let through while another one stood |
| SystemRoleRuns.SerialIsAtomic | internal/domain/orgs/system_roles.go:35-61 | Requests served one after another in three steps do what one-step requests do |
| SystemRoles.AuthorizedIsHolding | internal/domain/authz/authz.go:347-374 | Being authorized to grant or revoke is holding platform_admin |
| SystemRoles.OthersChangeNothing | internal/domain/orgs/system_roles.go:35-61 | Nobody who is not an administrator changes who is one |
| SystemRoles.HoldersAfter | internal/domain/orgs/system_roles.go:35-61 | A grant goes through for any account there is, a revocation unless it is one's own and no other live account holds the role; exactly that holder changes |
| SystemRoles.TwoAtOnce | internal/domain/orgs/system_roles.go:49-60 | The smallest overlap: two administrators who both passed the check leave nobody if and only if there was no third |
| SystemRoles.SystemRoleService.LastHolderOf | internal/domain/orgs/system_roles.go:64-77 | The scan says whether no other live account holds the role |
| SystemRoles.SystemRoleService.RevokeSystemRole | internal/domain/orgs/system_roles.go:44-61 | The method performs the operation the runs are made of |
| SystemRoles.SystemRoleService.GrantSystemRole | internal/domain/orgs/system_roles.go:35-41 | Likewise |
| AccountSafety.InvalidatedForGood | internal/api/middleware.go:445-473 | After a new password, a reset, a sign-out everywhere or a suspension commits, no token made from a row read before passes the bearer check again, even if its sign-in ends later and the suspension is lifted |
| AccountSafety.TokenHonouredIff | internal/api/v1/sessions.go:177-191 | A token passes the account check if and only if the account is live, not suspended, and its epoch has not moved since the row behind the token was read |
| AccountSafety.BumpsIff | internal/store/repositories/user.go:186-235 | The stored epoch moves, by exactly one, if and only if a password, sign-out, suspension or reset transaction commits on the live account |
| AccountSafety.ConsumeIff | internal/store/repositories/user_sign_in.go:349-388 | A sign-in code is spent if and only if it is open and its device can be trusted; then exactly that device becomes trusted and the code closes |
| AccountSafety.RefusedChangesNothing | internal/store/repositories/user.go:347-374 | A refused account transaction leaves every row as it was |
| AccountSafety.SecondFactorProvenance | internal/domain/user/sign_in.go:131-154 | A token made from a row with two-factor on went to a trusted, unrevoked device that a challenge raised for it, or its owner's password-checked change, had made trusted |
| AccountSafety.TrustProvenance | internal/domain/user/two_factor.go:114-190 | Every device that counts as trusted became so in one of those two ways |
| AccountSafety.RevokedForGood | internal/store/ent/device_rules.go:7-34 | A revoked device never counts as trusted again and never passes the bearer check's device read |
| AccountSafety.AddressProvenance | internal/domain/user/email_change.go:41-131 | An account's address is the one it registered with, or one confirmed by a code of a change to that address begun by somebody who gave its password |
| AccountTraces.TokenIsEarned | internal/domain/user/sign_in.go:77-155 | Every token in every history was signed for a request begun as a sign-in or a verification, whose first read found the account at the address typed, live and not suspended, with that very row; a sign-in had typed the row's password |
| AccountTraces.SecondFactorIsTyped | internal/domain/user/two_factor.go:94-153 | A token of a verification follows the committed redemption, by that request, of the account's current challenge for the token's device, with the digits the request typed being the ones drawn for it |
| AccountTraces.RedeemedByItsDigits | internal/domain/user/two_factor.go:103-131 | Every redemption in every history, for all three kinds of code, was made by a request that compared the code while it was unspent, unexpired and its account's, having typed exactly the digits drawn for it |
| AccountTraces.CodeIsDrawn | internal/domain/user/two_factor.go:31-52 | Every stored code was raised by the step that drew its digits: at sign-in for an untrusted device after the right password, for a change of address after the right password, for a reset for the address given |
| AccountTraces.ChangeIsEarned | internal/domain/user/two_factor.go:163-193 | Every new password, two-factor setting, trusted device and pending address a request commits was asked for by somebody who typed the account's password as read then; and it is the value typed |
| AccountTraces.CheckedIsKnown | internal/domain/user/email_change.go:41-59 | Wherever the log says a password was checked, a request at that step had typed the live account's password |
| AccountGuesses.DigitsDecide | internal/domain/user/service.go:366-381 | A comparison with the current code succeeds if and only if the digits typed are the ones drawn for it and, at sign-in, the device is the one it was drawn for |
| AccountGuesses.GuessesAreMisses | internal/domain/user/two_factor.go:115-125 | In every history the wrong guesses counted and still to be counted on a code are exactly the comparisons with it that failed |
| AccountGuesses.MissBound | internal/domain/user/service.go:366-381 | So with at most k verifications of a code in flight at most 5 + (k - 1) comparisons with it fail |
| AccountGuesses.MissIsRefused | internal/domain/user/email_change.go:118-124 | A request whose digits missed makes the counting statement and is refused; nothing else ever comes of it |
| AccountBearer.PassesIff | internal/api/middleware.go:445-473 | A request carrying an unexpired token, its account read at one moment and its device at a later one, passes if and only if the account was not suspended, its epoch had not moved since the token's row was read, and by the later moment neither a deletion of the account nor a revocation of the device had committed |
| AccountService.RunKeepsUnique | internal/domain/user/repository.go:139-142 | Every history keeps one live account per address, one device per account and fingerprint, and, where replacing a code is atomic, one open code per account |
| AccountService.Service.SignIn | internal/domain/user/sign_in.go:77-155 | The method is the sign-in call of the interleavings, run alone, for which the four rows below say what it answers |
| AccountAnswers.WrongPasswordRefused | internal/domain/user/sign_in.go:77-104 | A wrong password and an unknown address get the same refusal and change nothing |
| AccountAnswers.RightPassword | internal/domain/user/sign_in.go:106-121 | The right password is refused for a suspended account and goes on to the device otherwise |
| AccountAnswers.SignInOnKnownDevice | internal/domain/user/sign_in.go:118-155 | With the right password on a known device: refused if revoked, a token without a change if two-factor is off or the device trusted, and otherwise a challenge for that device replacing the account's open one |
| AccountAnswers.SignInOnNewDevice | internal/domain/user/sign_in.go:160-191 | With the right password and no known device a new untrusted one is made, and with two-factor on a challenge is raised for it |
| AccountService.Service.ResolveDevice | internal/domain/user/sign_in.go:160-191 | Recognises the device or registers an untrusted one |
| AccountService.Service.VerifyTwoFactor | internal/domain/user/two_factor.go:55-153 | The method is the verification call, run alone, for which the two rows below say what it answers |
| AccountAnswers.VerifyAnswers | internal/domain/user/two_factor.go:103-153 | With a current challenge and a known unrevoked device: a token, the challenge spent and the device trusted, if and only if it is that device's and the digits are its own; otherwise one guess is counted and nothing else changes |
| AccountAnswers.VerifyRefused | internal/domain/user/two_factor.go:55-112 | Without an account, a usable device or a current challenge it is refused and changes nothing |
| AccountService.Service.SpendChallenge | internal/domain/user/two_factor.go:103-131 | A wrong code or another device's counts; a right one is spent and the device trusted together |
| AccountService.Service.SetTwoFactor | internal/domain/user/two_factor.go:163-193 | The method is the call run alone |
| AccountService.Service.ChangePassword | internal/domain/user/password_change.go:28-61 | Likewise |
| AccountService.Service.CompletePasswordReset | internal/domain/user/service.go:342-392 | Likewise |
| AccountService.Service.BeginEmailChange | internal/domain/user/email_change.go:41-82 | Likewise |
| AccountService.Service.ConfirmEmailChange | internal/domain/user/email_change.go:103-131 | Likewise |
| AccountAnswers.ChangePasswordIff | internal/domain/user/password_change.go:28-61 | Done exactly with the right current password and a confirmed new one of allowed length; then hash and epoch move and nothing else |
| AccountAnswers.SetTwoFactorIff | internal/domain/user/two_factor.go:163-193 | Done exactly with the right password, unless turned on from a revoked device; turning it on trusts the known device it is asked from |
| AccountAnswers.BeginEmailChangeIff | internal/domain/user/email_change.go:41-82 | Done exactly with the right password and a usable address other than the present one; a code is raised for that address in place of the open one |
| AccountAnswers.ConfirmAnswers | internal/domain/user/email_change.go:103-131 | The right digits give the account the pending address and spend the code unless another live account has it; wrong digits are counted |
| AccountAnswers.ConfirmRefused | internal/domain/user/email_change.go:103-116 | Without a current change nothing happens |
| AccountAnswers.BeginResetAnswers | internal/domain/user/service.go:311-337 | For a live account's address a reset code is raised in place of the open one |
| AccountAnswers.BeginResetUnknown | internal/domain/user/service.go:311-319 | For any other address nothing is raised, and the answer is the same |
| AccountAnswers.ResetAnswers | internal/domain/user/service.go:342-392 | The right digits with an allowed password set it, move the epoch and spend the code; wrong digits are counted |
| AccountAnswers.ResetRefused | internal/domain/user/service.go:342-372 | Without a usable password, an account or a current code nothing changes |
| AccountService.Service.BeginPasswordReset | internal/domain/user/service.go:311-337 | The method is the call run alone |
| AccountService.Service.RequireBearer | internal/api/middleware.go:424-473 | The method makes the check of which AccountBearer.PassesIff says when it passes |
| AccountService.Tables.Delete | internal/store/repositories/user.go:109-144 | Retires the account and revokes exactly its devices |
| AccountService.Tables.SetSuspended | internal/store/repositories/user.go:216-235 | Suspending moves the epoch in the same statement; lifting does not |
| AccountService.Tables.SetPassword | internal/store/repositories/user.go:171-204 | The hash and the epoch move together |
| AccountService.Tables.ConsumeTwoFactorChallenge | internal/store/repositories/user_sign_in.go:349-388 | Spending and trusting land together or not at all |
| AccountService.Tables.ReplaceTwoFactorChallenge | internal/store/repositories/user_sign_in.go:247-280 | The account's open challenges go and the new one is added |
| AccountService.Tables.ConsumePasswordReset | internal/store/repositories/user.go:347-374 | Password, epoch and code in one transaction; a missing code rolls it back |
| AccountService.Tables.ConsumeEmailChange | internal/store/repositories/user_email_change.go:124-158 | Address and code in one transaction; an address another live account has is refused, a missing code rolls back |
| AccountService.Tables.RevokeDevice | internal/store/repositories/user_sign_in.go:126-159 | Blocks the device and ends its trust; twice is not a failure |
| Codes.GuessBound | internal/domain/user/two_factor.go:103-131 | With at most k verifications of a code in flight, at most 5 + (k - 1) wrong guesses are ever compared with it |
| Codes.NoGuessLost | internal/domain/user/repository.go:144-151 | While a code can be tried, its count is the wrong guesses made, less those whose write is still to come |
| Codes.TwoFactorRedeemedOnce | internal/store/repositories/user_sign_in.go:349-388 | A sign-in code is redeemed at most once |
| Codes.RedeemedTwiceIff | internal/store/repositories/user.go:347-374 | In every run a reset or address-change code is redeemed more than once if and only if two verifications that typed it right both loaded it before the first of them wrote, the row standing, and both went on to write |
| Codes.RedeemedOnceAlone | internal/domain/user/service.go:342-392 | With at most one verification of it in flight such a code is redeemed at most once |
| AccountCodes.GuessBoundInHistories | internal/domain/user/service.go:376-381 | The bound on wrong guesses, for reset, sign-in and address-change codes in every history of an installation |
| AccountCodes.NoGuessLostInHistories | internal/domain/user/repository.go:144-151 | In every history, the wrong guesses compared with a code that can still be tried are its stored count and the guesses whose write is still to come |
| AccountCodes.RedeemedOnceInHistories | internal/domain/user/email_change.go:103-131 | In every history a code of any kind is redeemed at most once while at most one verification of it is in flight |
| Codes.ResetRedeemedTwice | internal/store/repositories/user.go:347-374 | Two verifications that load a reset code before either spends it both redeem it |
| Codes.HashesSeparate | internal/domain/user/service.go:394-415 | Equal code hashes mean the same purpose, account and digits |
| Tokens.ParseIssued | internal/auth/token.go:94-189 | A token parses to its session until its last whole second, and to nothing under another secret or issuer |
| Tokens.LifetimeWithinASecond | internal/auth/token.go:102-176 | Rounding to seconds never lengthens a token's life and shortens it by less than a second |
| Tokens.GoodAtOnceIff | internal/auth/token.go:73-92 | A signer that is accepted issues tokens good at their own instant, whenever that is, if and only if its lifetime is at least a second; any positive one is accepted |
| Limiter.CollectorTransparent | internal/api/limit.go:35-82 | With timestamps out of order by at most half a refill, every decision is that of a limiter that never drops a bucket |
| Limiter.OrderedCollectorTransparent | internal/api/limit.go:35-82 | In particular with non-decreasing timestamps |
| Limiter.InsertBoundsTheMap | internal/api/limit.go:45-55 | Right after an insertion the map holds at most 1024 buckets or as many as keys seen within twice a refill |
| Limiter.WindowBound | internal/api/limit.go:40-66 | From any call on a key to an allowed one at most burst plus rate times elapsed were allowed, in whatever order timestamps came |
| Limiter.CollectedWindowBound | internal/api/limit.go:35-82 | The same bound with the collector, under the disorder it tolerates |
| Limiter.AllowedIff | internal/api/limit.go:40-66 | A call is refused if and only if letting it through would break that bound from some earlier call on its key, in whatever order timestamps came |
| Limiter.CollectedAllowedIff | internal/api/limit.go:35-85 | The same with the collector, under the disorder it tolerates |
| Limiter.FirstCallsPass | internal/api/limit.go:43-47 | The first burst calls on a new key all go through when timestamps do not run backwards, and one fewer for every token's time they may |
| Limiter.TokenLimiter.AllowAt | internal/api/limit.go:40-66 | The in-place update is the step the theorems are about |
| Limiter.TokenLimiter.GcLocked | internal/api/limit.go:71-82 | The loop deletes exactly the buckets idle for longer than twice a refill, once the map is large |
| Limiter.TokenLimiter.Allow | internal/api/limit.go:35-67 | A missing limiter allows; any other takes one step |
| Limiter.TokenLimiter.New | internal/api/limit.go:23-33 | No limiter for a rate of zero or less; otherwise an empty one |
| FileSafety.PointerNeverDangles | internal/domain/files/service.go:375-431 | Under every interleaving, failure and stop, an account's pointer is unset or names its own photo, whose row and blob both exist |
| FilePhotos.PhotosLeft | internal/domain/files/service.go:403-430 | When no step failed and nothing is in flight, the photos with a blob, and those with a row, are exactly the pointed ones and those replaced or detached by a write that had not read them and by none that had |
| FilePhotos.LeftIff | internal/domain/files/service.go:419-428 | The same from the requests' side: left are exactly the photos attached and not taken away by a write that had read them |
| FilePhotos.ExactIff | internal/domain/files/repository.go:66-73 | Rows and pointers are then exactly one another if and only if every photo overwritten unread was also taken away by a write that had read it |
| FilePhotos.InTurnIsExact | internal/domain/files/repository.go:66-77 | When no step fails and no photo change of an account begins before its earlier ones have written the pointer, blobs, rows and pointers end up exactly one another |
| FileQuiet.QuietIsExact | internal/domain/files/service.go:403-430 | A sufficient condition inside the run: no failure and every pointer unmoved between its read and its write |
| FileQuiet.TwoAtOnceLeaveOne | internal/store/repositories/file.go:196-245 | Two requests of one account that have both read the pointer and then both write leave the first photo behind |
| FileQuiet.PhotosCanBeLeftBehind | internal/store/repositories/file.go:196-278 | Any two photo changes of an account that have begun can come to that |
| FileQuiet.OrphanForGood | internal/domain/files/service.go:425-428 | A photo left behind stays behind, whatever else happens |
| FileBytes.StoredBytesComeBack | internal/domain/files/service.go:151-195 | After an upload succeeds, reading it gives the bytes, size and digest uploaded, through any run that never asks for its deletion |
| FileBytes.NeverWrongBytes | internal/domain/files/service.go:331-358 | At any moment a read gives nothing or exactly the bytes its row is about |
| FileBytes.AvatarAlwaysReads | internal/domain/files/service.go:441-468 | A photo an account points at can always be read, and is that account's |
| FileDocuments.RowWithoutBlobIff | internal/domain/files/service.go:360-370 | In every run a document has a row and no blob if and only if some deletion of it has passed its blob step and none has passed its row step |
| FileDocuments.BlobWithoutRowIff | internal/domain/files/service.go:168-192 | And a blob and no row if and only if an upload of it is past its blob step and not over, or failed to take the blob back |
| FileDocuments.DocumentsExact | internal/domain/files/service.go:360-370 | With no failed row deletion, no failed undo, and no upload or deletion of it under way, a document has a row if and only if it has a blob |
| FileBytes.DeleteLeavesARow | internal/domain/files/service.go:360-370 | Any stored document can come to that: blob removed, row deletion failed, a read answered as not found |
| FileService.FailedUploadUndone | internal/domain/files/service.go:186-192 | An upload stores exactly its blob and its row or, if its undo goes through, leaves the store as it was |
| FileService.FailedAvatarUndone | internal/domain/files/service.go:412-423 | Likewise for a photo at whatever step it is refused; the account keeps the one it had |
| FileService.DeleteAnswers | internal/domain/files/service.go:360-370 | A stored document of the organization goes, blob, row and pointers, and nothing else; any other is left alone |
| FileService.DeleteHalfDone | internal/domain/files/service.go:360-370 | A deletion that fails leaves everything, or the row without its blob, according to the step that failed |
| FileService.SetAvatarAnswers | internal/domain/files/service.go:375-430 | A photo set without failure is the one pointed at, with row and blob, and the one before is gone, row and blob |
| FileService.DeleteAvatarAnswers | internal/domain/files/service.go:470-490 | A photo taken off without failure is gone, pointer, blob and row |
| FileService.Service.Upload | internal/domain/files/service.go:151-195 | The method is the upload request, run alone |
| FileService.Service.Delete | internal/domain/files/service.go:360-370 | Likewise |
| FileService.Service.Read | internal/domain/files/service.go:331-358 | Row, blob, opening, in that order |
| FileService.Service.SetAvatar | internal/domain/files/service.go:375-431 | The method is the request run alone, compensation included |
| FileService.Service.DeleteAvatar | internal/domain/files/service.go:470-481 | Likewise |
| FileService.Service.DeleteRow | internal/store/repositories/file.go:181-194 | The row goes and every pointer to it is cleared |
| Blobs.OpenUndoesSeal | internal/domain/files/crypto.go:22-66 | Opening an envelope gives back what was sealed, and an envelope is 29 bytes longer |
| Blobs.Seal | internal/domain/files/crypto.go:22-40 | The buffer filled in place is version, nonce, ciphertext |
| Blobs.KeysApart | internal/domain/files/memory.go:24-69 | Document keys and photo keys never meet, and each names one file |
| Blobs.MemoryBlobs.Put | internal/domain/files/memory.go:28-38 | One key is written and every other kept |
| Blobs.MemoryBlobs.Remove | internal/domain/files/memory.go:57-65 | One key is cleared and every other kept |
| Address.NormalizeOnce | internal/domain/orgs/service.go:499-501 | A normalised address has no outer space and no capital letter, and normalising it again changes nothing |

## Left out

- HTTP handlers, documents, CORS, locale, mail, logging, telemetry and audit entries: no state the properties need.
- OrgService.Service.JoinDefaultOrganization: the registration that joins is one of the interleaved calls; creating the default organization is, there, one of the changes made elsewhere.
- The syntax of slugs and the names of organizations.
- Renaming organizations and roles, listing and paging: one branch each.
- Rounding of float64 in the limiter: time and tokens are reals.
- Whether a payload is accepted (name, type, size, scan): decided before the first step of an upload.
- bcrypt, SHA-256 and HMAC are injective functions, AES-GCM any cipher that opens what it sealed; UUIDs, tokens and device tokens are never drawn twice. The base64 and JSON text of a token is not modelled, nor is forging one.
- Timing, decoy hashes and the semaphore around bcrypt.
- Address.NormalizeOnce: trimming and lower-casing are modelled on ASCII; Unicode spaces and capitals are not.
- OrgDb.Tables.AcceptInvitation: one atomic transaction here. At READ COMMITTED it reads the invitation's roles and then counts the ones the organization owns, so a role deleted between the two makes it answer not found and roll back, where this one joins with the roles that are left.
- OrgDb.Tables.ReplaceRolePermissions: one atomic transaction here. The original locks nothing, so at READ COMMITTED two overlapping replacements of one role's permissions can leave the union of both lists, or end one of them in a unique violation.
- OrgDb.Tables.InviteMember and OrgDb.Tables.ReissueInvitation: the read-back after the commit happens at the same moment as the commit.
- Protected accounts and failures of a single statement: a store error stops a request without effect, as a request that takes no more steps does. Password lengths are counted in characters.
- AccountService.RunKeepsUnique: two overlapping replacements of one account's code are each atomic here, while READ COMMITTED lets both new rows stand; the bound on guesses is per code and does not depend on it.
- The identity of the newest active code: `Accounts` lets the lookup find any active code, and in every reachable store there is one.
- Codes.GuessBound: a verification that stops between its comparison and its write counts as in flight for ever.
- OrgTenancy.NonInterference: speaks of requests under grants for the organization and of appointments in it; accepting, declining and leaving take no grant and are not part of such a run.
- OrgRank.RankIsKept: requests by the member themselves, deletion of their account and the appointment of owners are excluded, as the rule excludes them; registrations are not.
- OrgAuthority.NoPrivilegeGrowth: provisioning of the organization (appointing an owner, registering into it) is excluded, because it answers to no grant in it.
