# Samudra-chain mock record store, in Dafny

This project models the back end of the carbon-credit registry front end: the in-memory record
store of `src/lib/mock-data.ts` and the server actions of `src/lib/actions/` that guard and drive it.

The store keeps four tables (users, organizations, projects, project proofs). It answers
find-by-id and find-by-email lookups and a per-project filter of proofs. It creates records by
appending them with `id = (length + 1).toString()`, and updates one record in place with an
object spread plus a fresh `updated_at`. It also handles sign-up (rejecting a taken e-mail),
sign-in (an ordered series of refusals), password reset, and a reset to the two seed accounts.

The actions add the rules around the store:

- a signed-in check;
- the hard-coded admin e-mail `admin@samudra-chain.com`;
- required-field validation;
- a forced initial status of `pending`;
- unconditional status overwrites (approve, verify, reject, close);
- the construction of upload names and URLs;
- uniform `{ error }` / `{ success, ... }` results.

Layout, one module per file:

- `wrappers.dfy` (`Wrappers`): `Option` (a JavaScript `null`) and `Result` (the result shape).
- `js_string.dfy` (`JsString`): `Number#toString` on non-negative integers, its inverse, and `String#trim`.
- `tables.dfy` (`Tables`): `findIndex` over a key column, and the "id = position + 1" invariant.
- `records.dfy` (`Records`): the entity datatypes, the field sets for creation, the partial
  updates, the proof filter, the seed users and the admin test.
- `mock_data.dfy` (`MockData`): the store, as class `Store` with one `seq` field per table.
  `Store.Valid()` is the invariant every operation keeps: the record at index `i` has id `i + 1`
  in decimal, and no two users share a contact e-mail.
- `organization_actions.dfy`, `project_actions.dfy`, `user_actions.dfy`: the server actions, as
  methods over a `Store`.

Modelling choices:

- Ids stay strings, as in the source. `NatToString` is proved injective through its inverse
  `DecimalValue`, so comparing ids as strings is comparing positions.
- The signed-in user (`getUser()`) is a parameter `user: Option<User>`. The current-user slot
  written by `setCurrentUser` is the field of a `Session` object. The auth module that holds
  both is not part of this model.
- Clock readings are inputs: `now` for the ISO timestamps, and `nowMillis` for `Date.now()`.
- A form entry that is absent is modelled as the empty string. Every truthiness test in the
  actions (`!name`, `x || ''`, `!password`) treats the two alike. The uploaded `File` is an
  `Option`, because a file object is truthy even when empty.
- Organization and project statuses are datatypes with the source's three and five values.
  The admin screen suggests a project lifecycle of pending → approved → verified → closed: it
  offers "Verify Project" only for an approved project and "Close Project" only for a verified one
  (src/components/admin/admin-proof-actions.tsx, lines 66 and 76). The server actions enforce no
  order: any admin status action overwrites any prior status. The model follows the code; `VerifyWithoutApproval` shows
  a project going from `pending` straight to `verified`.

## Model

| member | source | states |
|---|---|---|
| `JsString.NatToString` | src/lib/mock-data.ts:96 | an id printed by `toString` is a non-empty string of decimal digits with no leading zero |
| `JsString.DecimalRoundTrip` | src/lib/mock-data.ts:96 | reading the printed digits back gives the number that was printed |
| `JsString.NatToStringInjective` | src/lib/mock-data.ts:181 | two numbers print the same exactly when they are equal, so string ids identify positions |
| `JsString.TrimStart` | src/lib/mock-data.ts:124 | `trimStart` drops exactly a whitespace prefix and leaves a string that starts with non-whitespace |
| `JsString.TrimEnd` | src/lib/mock-data.ts:124 | `trimEnd` drops exactly a whitespace suffix and leaves a string that ends with non-whitespace |
| `JsString.Trim` | src/lib/mock-data.ts:124 | `trim` leaves no whitespace at either end, and `password.trim() === ''` holds exactly when the password is empty or only whitespace |
| `Tables.IndexOf` | src/lib/mock-data.ts:191 | `findIndex` gives the first position holding the key, or none exactly when the key is absent |
| `Tables.PositionalIdsAreDistinct` | src/lib/mock-data.ts:214 | ids assigned as `length + 1` on every append are pairwise distinct |
| `Tables.AppendKeepsPositions` | src/lib/mock-data.ts:243 | appending a record with id `length + 1` keeps every id equal to its position + 1 |
| `Tables.PositionalIdFoundAt` | src/lib/mock-data.ts:174-175 | with positional ids, the id `k` is found at index `k - 1` |
| `Tables.PositionalIdsOnly` | src/lib/mock-data.ts:207-208 | with positional ids, an id is found exactly when it names a position `1..length` |
| `Records.PatchOrganization` | src/lib/mock-data.ts:194-198 | the spread update changes only the supplied fields and `updated_at`; the id is kept |
| `Records.PatchProject` | src/lib/mock-data.ts:227-231 | the spread update changes only the supplied fields and `updated_at`; the id is kept |
| `Records.IsAdmin` | src/lib/actions/organization-actions.ts:98 | the admin test: a signed-in user whose e-mail is exactly `admin@samudra-chain.com` (repeated at organization-actions.ts:121 and project-actions.ts:105, 128, 151, 212) |
| `Records.UserRecord` | src/lib/mock-data.ts:94-99 | the stored user is the supplied fields unchanged, plus the new id and both timestamps set to now |
| `Records.OrganizationRecord` | src/lib/mock-data.ts:179-184 | the stored organization is the supplied fields unchanged, plus the new id and both timestamps set to now |
| `Records.ProjectRecord` | src/lib/mock-data.ts:212-217 | the stored project is the supplied fields unchanged, plus the new id and both timestamps set to now |
| `Records.ProofRecord` | src/lib/mock-data.ts:241-245 | the stored proof is the supplied fields unchanged, plus the new id and `created_at` set to now |
| `Records.SeedUsers` | src/lib/mock-data.ts:47-76 | the two seed accounts (re-created at lines 263-292) have ids '1' and '2', distinct e-mails, are verified and active, and the first is the admin account |
| `Records.ProofsFor` | src/lib/mock-data.ts:236-238 | the filter returns exactly the proofs of that project, and no more than the table holds |
| `Records.ProofsForAppend` | src/lib/mock-data.ts:236-238 | the filter keeps insertion order: a proof added at the end shows up last in its own project's list and in no other |
| `MockData.Store.constructor` | src/lib/mock-data.ts:47-82 | the store starts with the two seed users, empty other tables, and the invariant holding |
| `MockData.Store.Reset` | src/lib/mock-data.ts:262-296 | reset restores exactly the two seed users, empties the other three tables, and re-establishes the invariant |
| `MockData.Store.GetUser` | src/lib/mock-data.ts:162-164 | the result is a stored user with that id, or null exactly when no user has it |
| `MockData.Store.GetUserByEmail` | src/lib/mock-data.ts:166-168 | the result is a stored user with that e-mail, or null exactly when none has it; in a valid store it is the only such user |
| `MockData.Store.GetOrganization` | src/lib/mock-data.ts:174-176 | the result is a stored organization with that id, or null exactly when none has it |
| `MockData.Store.GetProject` | src/lib/mock-data.ts:207-209 | the result is a stored project with that id, or null exactly when none has it |
| `MockData.Store.GetProjectProofs` | src/lib/mock-data.ts:236-238 | the result holds exactly the stored proofs whose project id matches |
| `MockData.Store.LookupAtPosition` | src/lib/mock-data.ts:162-209 | in a valid store, looking up id `k` in any table finds the record at index `k - 1` |
| `MockData.Store.LookupFindsOnlyPositions` | src/lib/mock-data.ts:162-209 | in a valid store, a lookup succeeds exactly for ids that name a position of the table |
| `MockData.Store.AdminAccountIsUnique` | src/lib/actions/organization-actions.ts:98 | in a valid store at most one stored account passes the admin test, because e-mails are unique |
| `MockData.Store.SignUp` | src/lib/mock-data.ts:85-107 | a taken e-mail gives 'User with this email already exists' and no change; otherwise one user is appended with id `length + 1`; e-mails stay unique |
| `MockData.Store.SignIn` | src/lib/mock-data.ts:109-132 | unknown e-mail, then deactivated account (whatever the password), then blank password are refused in that order; otherwise the account with that e-mail is returned |
| `MockData.Store.ResetPassword` | src/lib/mock-data.ts:144-159 | succeeds exactly for an e-mail on file; otherwise fails with the 'If an account with this email exists...' message |
| `MockData.Store.CreateOrganization` | src/lib/mock-data.ts:178-188 | appends exactly one organization, with id `length + 1`, and leaves the other tables alone |
| `MockData.Store.CreateProject` | src/lib/mock-data.ts:211-221 | appends exactly one project, with id `length + 1`, and leaves the other tables alone |
| `MockData.Store.CreateProjectProof` | src/lib/mock-data.ts:240-249 | appends exactly one proof, with id `length + 1`; that project's proof list gains it at the end and every other list is unchanged |
| `MockData.Store.UpdateOrganization` | src/lib/mock-data.ts:190-201 | an unknown id gives null and no change; otherwise only the first matching record is rewritten, with the patch applied, and the table length is kept |
| `MockData.Store.UpdateProject` | src/lib/mock-data.ts:223-234 | an unknown id gives null and no change; otherwise only the first matching record is rewritten, with the patch applied, and the table length is kept |
| `OrganizationActions.CreateOrganization` | src/lib/actions/organization-actions.ts:12-39 | no user or a missing name/description is refused with no change; otherwise one pending organization owned by the user is appended |
| `OrganizationActions.GetOrganization` | src/lib/actions/organization-actions.ts:50-62 | the organization with that id, or 'Organization not found' exactly when there is none |
| `OrganizationActions.UpdateOrganization` | src/lib/actions/organization-actions.ts:64-93 | refusals change nothing; an unknown id gives 'Organization not found'; otherwise only name, description and `updated_at` of that record change, so owner and status are kept |
| `OrganizationActions.SetStatus` | src/lib/actions/organization-actions.ts:95-139 | non-admins are refused with no change; the admin overwrites the status of the record with that id, whatever it was |
| `OrganizationActions.ApproveOrganization` | src/lib/actions/organization-actions.ts:95-116 | only the admin e-mail may approve; the status becomes 'approved' from any prior status; an unknown id gives 'Organization not found' |
| `OrganizationActions.RejectOrganization` | src/lib/actions/organization-actions.ts:118-139 | only the admin e-mail may reject; the status becomes 'rejected' from any prior status; an unknown id gives 'Organization not found' |
| `ProjectActions.CreateProject` | src/lib/actions/project-actions.ts:14-44 | no user or any of the four fields empty is refused with no change; otherwise one pending project is appended, with the organization id unchecked |
| `ProjectActions.GetProject` | src/lib/actions/project-actions.ts:55-67 | the project with that id, or 'Project not found' exactly when there is none |
| `ProjectActions.UpdateProject` | src/lib/actions/project-actions.ts:69-100 | refusals change nothing; an unknown id gives 'Project not found'; otherwise only name, description, location and `updated_at` change, so organization and status are kept |
| `ProjectActions.SetStatus` | src/lib/actions/project-actions.ts:102-169 | the shared body of approve, verify, reject (and close, lines 209-230): non-admins are refused with no change; the admin overwrites the status of the record with that id, whatever it was |
| `ProjectActions.ApproveProject` | src/lib/actions/project-actions.ts:102-123 | only the admin e-mail may approve; the status becomes 'approved' from any prior status; an unknown id gives 'Project not found' |
| `ProjectActions.VerifyProject` | src/lib/actions/project-actions.ts:125-146 | only the admin e-mail may verify; the status becomes 'verified' from any prior status; an unknown id gives 'Project not found' |
| `ProjectActions.RejectProject` | src/lib/actions/project-actions.ts:148-169 | only the admin e-mail may reject; the status becomes 'rejected' from any prior status; an unknown id gives 'Project not found' |
| `ProjectActions.CloseProject` | src/lib/actions/project-actions.ts:209-230 | only the admin e-mail may close; the status becomes 'closed' from any prior status; an unknown id gives 'Project not found' |
| `ProjectActions.VerifyWithoutApproval` | src/lib/actions/project-actions.ts:133-135 | a project that is still 'pending' is verified successfully: no transition is checked |
| `ProjectActions.GetProjectProofs` | src/lib/actions/project-actions.ts:171-178 | always succeeds, with exactly the proofs filed under that project id |
| `ProjectActions.CreateProjectProof` | src/lib/actions/project-actions.ts:180-207 | no user or any of the three fields empty is refused with no change; otherwise one proof is appended, whether or not the project exists |
| `ProjectActions.LeadingDigits` | src/lib/actions/project-actions.ts:249 | counts the run of digits that opens a stored upload name |
| `ProjectActions.UploadFileName` | src/lib/actions/project-actions.ts:249 | the stored name `now-name` gives back both the clock reading and the original file name |
| `ProjectActions.UploadUrl` | src/lib/actions/project-actions.ts:250 | the URL is the upload root, the project id and a slash, followed by exactly the stored file name |
| `ProjectActions.UploadUrlsDistinct` | src/lib/actions/project-actions.ts:249-250 | two uploads to one project share a URL only if they have the same millisecond and the same file name |
| `ProjectActions.UploadProof` | src/lib/actions/project-actions.ts:232-264 | no user, or a missing project id or file, is refused with no change; otherwise one proof is appended with name `now-file.name` and URL `/mock-uploads/<project>/<name>` |
| `UserActions.SignUpData` | src/lib/actions/user-actions.ts:16-33 | the type defaults to 'individual'; the optional fields default to ''; a new account is unverified and active, with the form's e-mail |
| `UserActions.SignUpUser` | src/lib/actions/user-actions.ts:12-51 | a store error is returned verbatim with the store and current user unchanged; on success the user is stored, becomes the current user, and can sign in with any non-blank password |
| `UserActions.SignInUser` | src/lib/actions/user-actions.ts:53-76 | the store's verdict is passed through; a success sets the current user to that account, a refusal leaves it alone |
| `UserActions.SignOutUser` | src/lib/actions/user-actions.ts:78-94 | always succeeds and clears the current user to '' |
| `UserActions.ResetPassword` | src/lib/actions/user-actions.ts:96-110 | succeeds exactly for an e-mail on file, otherwise returns the store's message; nothing changes |

## Left out

- `mockGetOrganizations`, `mockGetProjects`, `getOrganizations`, `getProjects` and `getMockData` return whole tables; in the model these are reads of the `Store` fields.
- `mockSignOutUser` always succeeds, so it adds nothing to `UserActions.SignOutUser`.
- The `try`/`catch` branches that return 'An unexpected error occurred' are unreachable in the model, because no modelled operation throws.
- 'Failed to create user account' (signUpUser) and 'Invalid login credentials' (signInUser) are unreachable, because a successful store answer always carries a user.
- `revalidatePath`, the async plumbing, and the Supabase-backed modules are framework and network code. The pages and components are presentation.
- The real `getUser`, `setCurrentUser` and `isAdmin` are in an auth module that is not part of this model; the user is a parameter and the current user a `Session` field.
- `MockData.Store.CreateOrganization`: `created_at` and `updated_at` both take the one `now` input, while the source reads the clock once for each. The same holds for the other create methods and for the seed users.
- `Records.PatchOrganization`: a partial update carrying `id` or `updated_at` is not modelled. No caller passes `id`, and the store overwrites `updated_at` anyway. The same holds for `Records.PatchProject`.
- `UserActions.SignUpUser`: an absent name or e-mail entry is stored as '' rather than `null`. Absent and empty e-mail entries therefore differ wherever an e-mail is compared: the duplicate check of sign-up, sign-in and password reset. In the source, an account stored with a `null` e-mail is not found by an empty e-mail entry (`null === ''` is false), nor is a stored '' found by an absent entry; in the model both are found. The only caller, the auth form (src/components/auth/auth-form.tsx, lines 36 and 94), always sends an `email` entry.
- `ProjectActions.UploadProof`: a `proof` entry posted as text rather than a file is not modelled. The source would then build its name from `undefined`.
- `JsString.NatToString`: the exponent notation JavaScript uses for numbers of 10^21 and above is not modelled. Ids and millisecond clock readings stay far below it.
- Strings are sequences of Unicode code points, not UTF-16 code units. `trim` is modelled with the ECMAScript whitespace and line-terminator set.
- Concurrent requests are not modelled. Every operation runs alone, as in a single-threaded server.
