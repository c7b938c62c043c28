# egram portal: a Dafny model of its page logic

egram is a village-council (gram panchayat) web portal. Citizens apply for
certificates, pay property tax, file grievances and read announcements.
Administrators review the certificate applications, record tax dues, answer
grievances and watch dashboard figures. Every page is a React component that
reads and writes a hosted Postgres store and keeps a little local state.

This project models what those pages compute and change:

- The store is a class (`Store.Store`) with one sequence per table. It
  assigns row ids, inserts rows, and applies `update(...).eq("id", id)`
  patches.
- Each page whose state the source updates is a class. Its fields are the
  page's state variables, and its methods are the page's handlers. The store's
  success or failure is passed in as a parameter: `writeError` is the error
  message, `readFails` / `refetchFails` say a read returned no data.
- Pure page logic is a set of functions: the filters and counts of the
  dashboards, the status badges, the certificate number, the join of role
  rows with profiles, `getInitials`, and the navigation lists.

The proved properties include:

- a certificate number round-trips to the time and draw it was built from;
- approving a certificate keeps every approved certificate issued;
- paying a tax row moves exactly that row and its amount from the unpaid
  figures to the paid ones;
- the dashboards' tax figures agree with the tax pages' figures, although the
  tax pages reorder the rows;
- the role/profile join has one entry per role row, in order, with the first
  matching profile;
- the sidebar's lists have the right sizes and unique paths, and admin paths
  start with "/admin";
- initials are at most two upper-case characters and are exactly the word
  starts of the name.

Ordering follows PostgreSQL's `ORDER BY ... DESC`: NULLs first, then
descending values. `Query.SortDesc` is an insertion sort proved sorted and a
permutation of its input.

The administrator's grievance update writes the column `admin_response`, but
the citizen's grievance page shows the column `admin_remarks`. The model keeps
both columns as the code has them. `CitizenGrievances.AdminUpdateNotShown`
states the consequence: an administrator's update never changes what the
citizen sees as the admin response.

`.single()` (profile role) and `.maybeSingle()` (sidebar admin check) are
modelled as the client library behaves. Exactly one matching row gives data.
No row gives null. Several rows give an error and null data. So the sidebar
shows the admin menu only when the user has exactly one admin role row,
rather than whenever such a row exists. `Sidebar.AdminFlagWithUniqueRoles`
proves the two agree when (user_id, role) pairs are unique. Likewise the
profile shows "citizen" for a user with more than one role row.

## Model

| member | source | states |
|---|---|---|
| Query.Filter | src/pages/admin/Dashboard.tsx:41-46 | `filter`: the result holds exactly the rows satisfying the predicate and is no longer than the input |
| Query.FilterAppend | src/pages/admin/Dashboard.tsx:41-46 | filtering a concatenation filters each part |
| Query.TotalAppend | src/pages/admin/Dashboard.tsx:45-46 | the `reduce` sum of a concatenation is the sum of the parts |
| Query.FilterMonotone | src/pages/admin/PropertyTax.tsx:120-123 | a stronger condition selects no more rows (overdue rows are among the unpaid ones) |
| Query.FilterDisjoint | src/pages/admin/Dashboard.tsx:41-42 | counts under two exclusive conditions add up to at most the number of rows |
| Query.FilterPartition | src/pages/admin/Dashboard.tsx:43-44 | counts under a condition and its negation add up to the number of rows |
| Query.FilterFilter | src/pages/Dashboard.tsx:27-31 | filtering by user and then by status is filtering once by both |
| Query.FilterPermutation | src/pages/admin/PropertyTax.tsx:110-119 | counts and sums over the filtered rows do not depend on the rows' order |
| Query.AtLeastTotal | src/pages/admin/PropertyTax.tsx:113 | the descending order with NULLs first compares any two keys |
| Query.InsertDesc | src/pages/admin/PropertyTax.tsx:113 | inserting into a descending list keeps it descending and adds exactly the new row |
| Query.SortDesc | src/pages/admin/PropertyTax.tsx:113 | `order(..., { ascending: false })`: the result is descending and a permutation of the rows |
| Strings.Show | src/pages/admin/Certificates.tsx:58 | the decimal text of a number is non-empty and all digits |
| Strings.ParseShow | src/pages/admin/Certificates.tsx:58 | reading back the decimal text of a number gives the number |
| Strings.IndexOf | src/pages/admin/Grievances.tsx:94 | the index of the first occurrence of a character, or None when it does not occur |
| Strings.IndexOfFirst | src/pages/admin/Grievances.tsx:94 | a character absent from a prefix is first found just after that prefix |
| Strings.DigitsHaveNoDash | src/pages/admin/Certificates.tsx:58 | decimal text contains no "-", so the separators of a certificate number are unambiguous |
| Strings.ReplaceFirst | src/pages/admin/Grievances.tsx:94 | `replace("-", " ")`: only the first occurrence is replaced; with none the text is unchanged |
| Store.PatchCertificates | src/pages/admin/Certificates.tsx:63-66 | the update changes exactly the rows with the id, and keeps every id and every other row |
| Store.PatchTaxes | src/pages/PropertyTax.tsx:42-48 | the update changes exactly the rows with the id, and keeps every id and every other row |
| Store.PatchGrievances | src/pages/admin/Grievances.tsx:55-62 | the update changes exactly the rows with the id, and keeps every id and every other row |
| Store.Store.InsertCertificate | src/pages/Certificates.tsx:63-68 | appends one row under a fresh id, other tables unchanged |
| Store.Store.InsertPropertyTax | src/pages/admin/PropertyTax.tsx:66-78 | appends one row under a fresh id, other tables unchanged |
| Store.Store.InsertGrievance | src/pages/Grievances.tsx:59-62 | appends one row under a fresh id, other tables unchanged |
| Store.Store.UpdateCertificate | src/pages/admin/Certificates.tsx:63-66 | the certificates table becomes its patch; ids stay unique |
| Store.Store.UpdatePropertyTax | src/pages/PropertyTax.tsx:42-48 | the tax table becomes its patch; ids stay unique |
| Store.Store.UpdateGrievance | src/pages/admin/Grievances.tsx:55-62 | the grievance table becomes its patch; ids stay unique |
| AdminCertificates.CertificateNumber | src/pages/admin/Certificates.tsx:58 | the number starts "CERT-" and a dash follows the time |
| AdminCertificates.CertificateNumberRoundTrip | src/pages/admin/Certificates.tsx:58 | "CERT-<now>-<draw>" parses back to the time and the draw |
| AdminCertificates.CertificateNumberInjective | src/pages/admin/Certificates.tsx:58 | different times or draws give different certificate numbers |
| AdminCertificates.StatusPatch | src/pages/admin/Certificates.tsx:54-61 | the update carries the status; a number and issue date exactly when approving, the number parsing back to now and the draw |
| AdminCertificates.StatusPatchEffect | src/pages/admin/Certificates.tsx:54-61 | approving sets the status, a number carrying now and the draw, and issue date now; any other status changes the status only |
| AdminCertificates.StatusUpdateKeepsApprovedIssued | src/pages/admin/Certificates.tsx:52-66 | after any status update every approved certificate still has a number and an issue date |
| AdminCertificates.ReviewIsFinal | src/pages/admin/Certificates.tsx:168-186 | Approve/Reject appear only for pending rows, and after either the row is no longer offered them |
| AdminCertificates.SuccessMessage | src/pages/admin/Certificates.tsx:70-73 | the toast text starts "Certificate <status>" |
| AdminCertificates.SuccessMessageMentionsGeneration | src/pages/admin/Certificates.tsx:70-73 | the success toast ends with " Certificate generated." exactly when approving |
| AdminCertificates.StatusBadge | src/pages/admin/Certificates.tsx:88-104 | approved is default, rejected destructive, every other status secondary; the text is the status |
| AdminCertificates.AdminCertificatesPage.constructor | src/pages/admin/Certificates.tsx:27-30 | no certificates, loading, no toast |
| AdminCertificates.AdminCertificatesPage.FetchCertificates | src/pages/admin/Certificates.tsx:36-50 | all certificates newest first; a failed read keeps the list; loading ends |
| AdminCertificates.AdminCertificatesPage.UpdateStatus | src/pages/admin/Certificates.tsx:52-82 | on error the store is untouched and the error toast shows the message; on success the patch is applied, the success toast shown and the list refetched |
| CitizenCertificates.Submission | src/pages/Certificates.tsx:63-68 | the inserted record is the current user plus the three form fields |
| CitizenCertificates.OwnCertificates | src/pages/Certificates.tsx:47-51 | exactly the user's certificates, each as often as stored (a permutation of them), newest first |
| CitizenCertificates.SubmittedApplicationListed | src/pages/Certificates.tsx:56-85 | a submitted application appears in the user's next listing, pending, with the form's type and name |
| CitizenCertificates.SubmissionKeepsApprovedIssued | src/pages/Certificates.tsx:63-68 | a new application does not break "every approved certificate is issued" |
| CitizenCertificates.StatusColor | src/pages/Certificates.tsx:87-96 | approved is success, rejected destructive, everything else warning |
| CitizenCertificates.ViewedCertificateIsIssued | src/pages/Certificates.tsx:185 | a certificate offered for viewing has a number and an issue date to show |
| CitizenCertificates.RemarksLine | src/pages/Certificates.tsx:315-319 | the "Remarks:" line shows the remarks exactly when they are non-empty |
| CitizenCertificates.ReviewKeepsRemarks | src/pages/admin/Certificates.tsx:54-66 | approving or rejecting never changes the applicant's remarks line, so a rejection carries no reason |
| CitizenCertificates.CertificatesPage.constructor | src/pages/Certificates.tsx:24-31 | no certificates, dialog closed, empty form |
| CitizenCertificates.CertificatesPage.EditForm | src/pages/Certificates.tsx:126-145 | typing replaces the form and nothing else |
| CitizenCertificates.CertificatesPage.FetchCertificates | src/pages/Certificates.tsx:41-54 | no user changes nothing; otherwise the user's certificates, or none when no data comes back |
| CitizenCertificates.CertificatesPage.HandleSubmit | src/pages/Certificates.tsx:56-85 | no user: nothing; error: error toast, form kept; success: one row appended under a fresh id, dialog closed, form emptied, list refetched |
| CitizenCertificates.Submit | src/pages/Certificates.tsx:56-85 | a submission the store accepts appends one application under a fresh id |
| CitizenCertificates.SubmitTwice | src/pages/Certificates.tsx:56-85 | submitting the same form twice stores two applications with different ids |
| LegacyCertificates.LegacyCertificatesPage.constructor | Certificates.tsx:23-29 | no certificates, dialog closed, empty form |
| LegacyCertificates.LegacyCertificatesPage.FetchCertificates | Certificates.tsx:35-48 | as the newer page: the user's certificates newest first, none without data, unchanged without user |
| LegacyCertificates.LegacyCertificatesPage.HandleSubmit | Certificates.tsx:50-79 | as the newer page: error keeps the form; success appends the application, closes, empties and refetches |
| LegacyCertificates.AppliedOn | Certificates.tsx:174-177 | "Applied on" reads `application_date`; a NULL there shows as the epoch |
| LegacyCertificates.SubmittedAppliedOnEpoch | Certificates.tsx:174-177 | if `application_date` has no column default (as the store model assumes), an application submitted from the page, which never writes it, shows "Applied on" the epoch |
| AdminPropertyTax.NewTaxRecord | src/pages/admin/PropertyTax.tsx:66-78 | the new record is unpaid, owned by the signed-in administrator (or ""), with the form's property fields |
| AdminPropertyTax.EmailNotRecorded | src/pages/admin/PropertyTax.tsx:44-78 | the e-mail typed into the form never reaches the record |
| AdminPropertyTax.Stats | src/pages/admin/PropertyTax.tsx:117-129 | overdue ≤ pending ≤ number of records; no pending record means none overdue |
| Rows.DateMillis | src/pages/admin/PropertyTax.tsx:122 | `new Date(d)` of a date column: the date itself, or the epoch (0) for NULL |
| AdminPropertyTax.IsOverdue | src/pages/admin/PropertyTax.tsx:121-123 | overdue exactly when unpaid and the due date is before now, a NULL due date counting as the epoch |
| AdminPropertyTax.NullDueDateOverdue | src/pages/admin/PropertyTax.tsx:121-123 | an unpaid row with a NULL due date is overdue at any time after the epoch |
| AdminPropertyTax.StatusBadge | src/pages/admin/PropertyTax.tsx:138-155 | "paid" shows Paid whatever the date; otherwise Overdue (destructive) exactly when the due date is before now, a NULL date counting as the epoch, else Pending (secondary) |
| AdminPropertyTax.OverdueMatchesBadge | src/pages/admin/PropertyTax.tsx:121-152 | a record counts as overdue exactly when it is unpaid and its badge reads Overdue |
| AdminPropertyTax.AdminPropertyTaxPage.constructor | src/pages/admin/PropertyTax.tsx:36-53 | no records, zero stats, loading, dialog closed, default form |
| AdminPropertyTax.AdminPropertyTaxPage.FetchTaxRecords | src/pages/admin/PropertyTax.tsx:108-136 | records by due date descending with their stats; a failed read keeps both; loading ends |
| AdminPropertyTax.AdminPropertyTaxPage.HandleSubmit | src/pages/admin/PropertyTax.tsx:59-106 | error: error toast, form kept; success: one unpaid record appended, dialog closed, form reset, records refetched |
| CitizenPropertyTax.OwnTaxes | src/pages/PropertyTax.tsx:32-36 | exactly the user's tax rows, each as often as stored (a permutation of them), newest first |
| CitizenPropertyTax.PaymentPatch | src/pages/PropertyTax.tsx:42-48 | the payment update sets status "paid" and the payment time now |
| CitizenPropertyTax.Summary | src/pages/PropertyTax.tsx:66-73 | unpaid and paid counts add up to at most the number of rows |
| CitizenPropertyTax.PatchTaxesCons | src/pages/PropertyTax.tsx:42-48 | the payment update works row by row from the front |
| CitizenPropertyTax.PatchTaxesMissing | src/pages/PropertyTax.tsx:42-48 | an update for an id no row has changes nothing |
| CitizenPropertyTax.SummaryCons | src/pages/PropertyTax.tsx:66-73 | one more row adds to the count and total of its own status only |
| CitizenPropertyTax.PaymentMovesAmount | src/pages/PropertyTax.tsx:40-73 | paying an unpaid row: unpaid −1, paid +1, and its amount moves from the unpaid total to the paid total |
| CitizenPropertyTax.RowActions | src/pages/PropertyTax.tsx:149-235 | each row shows exactly one of Pay Now and Paid on; Pay Now rows read Unpaid |
| CitizenPropertyTax.PropertyTaxPage.constructor | src/pages/PropertyTax.tsx:21 | no rows, no toast |
| CitizenPropertyTax.PropertyTaxPage.FetchPropertyTax | src/pages/PropertyTax.tsx:28-38 | no user changes nothing; otherwise the user's rows, or none without data |
| CitizenPropertyTax.PropertyTaxPage.HandlePayment | src/pages/PropertyTax.tsx:40-64 | error: error toast, nothing changed; success: the row marked paid at now, success toast, rows refetched |
| AdminGrievances.ResponsePatch | src/pages/admin/Grievances.tsx:55-62 | the update carries the chosen status, the typed response and now |
| AdminGrievances.ResponsePatchEffect | src/pages/admin/Grievances.tsx:53-62 | any status may be set; the row gets the response as admin_response and now as updated_at, nothing else |
| AdminGrievances.BadgeText | src/pages/admin/Grievances.tsx:94 | the first "-" of the status becomes a space, nothing else changes; a status without "-" is shown as is |
| AdminGrievances.BadgeTextInProgress | src/pages/admin/Grievances.tsx:94 | "in-progress" is labelled "in progress" |
| AdminGrievances.StatusBadge | src/pages/admin/Grievances.tsx:81-97 | in-progress and resolved are default, every other status secondary |
| AdminGrievances.AdminGrievancesPage.constructor | src/pages/admin/Grievances.tsx:28-31 | no grievances, loading, empty response |
| AdminGrievances.AdminGrievancesPage.EditResponse | src/pages/admin/Grievances.tsx:198 | typing replaces the response text and nothing else |
| AdminGrievances.AdminGrievancesPage.FetchGrievances | src/pages/admin/Grievances.tsx:37-51 | all grievances newest first; a failed read keeps the list; loading ends |
| AdminGrievances.AdminGrievancesPage.UpdateStatus | src/pages/admin/Grievances.tsx:53-79 | error: error toast, response kept; success: patch applied, response cleared, list refetched |
| CitizenGrievances.Submission | src/pages/Grievances.tsx:59-62 | the inserted record is the current user plus every form field |
| CitizenGrievances.OwnGrievances | src/pages/Grievances.tsx:43-47 | exactly the user's grievances, each as often as stored (a permutation of them), newest first |
| CitizenGrievances.StatusColor | src/pages/Grievances.tsx:81-92 | resolved success, rejected destructive, in-progress info, everything else warning |
| CitizenGrievances.PriorityColor | src/pages/Grievances.tsx:94-103 | urgent destructive, high warning, everything else secondary |
| CitizenGrievances.AdminResponseShown | src/pages/Grievances.tsx:209-213 | the "Admin Response" line shows `admin_remarks` exactly when it is non-empty |
| CitizenGrievances.AdminUpdateNotShown | src/pages/Grievances.tsx:209-211 | the page shows admin_remarks, so no status update (which writes admin_response) changes what it shows |
| CitizenGrievances.GrievancesPage.constructor | src/pages/Grievances.tsx:24-31 | no grievances, dialog closed, form with priority "normal" |
| CitizenGrievances.GrievancesPage.EditForm | src/pages/Grievances.tsx:132-158 | typing replaces the form and nothing else |
| CitizenGrievances.GrievancesPage.FetchGrievances | src/pages/Grievances.tsx:37-50 | no user changes nothing; otherwise the user's grievances, or none without data |
| CitizenGrievances.GrievancesPage.HandleSubmit | src/pages/Grievances.tsx:52-79 | no user: nothing; error: error toast, form kept; success: one pending grievance appended, dialog closed, form reset, list refetched |
| AdminDashboard.FetchAdminStats | src/pages/admin/Dashboard.tsx:32-61 | the number of citizen role rows, of pending and of approved certificates, of open and of resolved grievances; pending + approved ≤ certificates; open + resolved = grievances; missing data gives 0 |
| AdminDashboard.CertificateCounts | src/pages/admin/Dashboard.tsx:41-42 | the pending and approved counts add up to at most the number of certificates |
| AdminDashboard.GrievanceCounts | src/pages/admin/Dashboard.tsx:43-44 | open and resolved counts add up to the number of grievances |
| AdminDashboard.TaxCollectionMatchesTaxPage | src/pages/admin/Dashboard.tsx:45-46 | the dashboard's tax collection equals the Total Collected of the property-tax page over the same table |
| AdminDashboard.CardCaption | src/pages/admin/Dashboard.tsx:140 | the first three cards read "Requires attention", the rest "Total processed" |
| CitizenDashboard.OwnCertificates | src/pages/Dashboard.tsx:25 | exactly the user's certificates; none when the data is null |
| CitizenDashboard.OwnGrievances | src/pages/Dashboard.tsx:26 | exactly the user's grievances; none when the data is null |
| CitizenDashboard.FetchStats | src/pages/Dashboard.tsx:17-45 | no user keeps zeros; pending ≤ total for certificates and grievances; announcements are counted for everyone |
| CitizenDashboard.TaxDueMatchesTaxPage | src/pages/Dashboard.tsx:27-42 | Property Tax Due equals the unpaid count the property-tax page shows the same user |
| CitizenDashboard.CertificatesMatchCertificatesPage | src/pages/Dashboard.tsx:25-38 | Total and Pending Certificates equal the number of applications, and of pending ones, that the certificates page lists for the same user |
| CitizenDashboard.GrievancesMatchGrievancesPage | src/pages/Dashboard.tsx:26-40 | the grievance total and Active Grievances equal the number of grievances, and of unresolved ones, that the grievances page lists for the same user |
| Initials.Split | src/pages/admin/Users.tsx:68 | `split(" ")` gives at least one piece and no piece holds a space |
| Initials.SplitJoin | src/pages/admin/Users.tsx:68 | joining the pieces with spaces gives back the name |
| Initials.HeadsAreWordStarts | src/pages/admin/Users.tsx:67-70 | the first characters of the pieces are exactly the characters that start a word |
| Initials.UpperChar | src/pages/admin/Users.tsx:71 | upper-casing leaves no lower-case letter and changes only a–z |
| Initials.Upper | src/pages/admin/Users.tsx:71 | upper-casing keeps the length and maps each character |
| Initials.GetInitials | src/pages/Profile.tsx:89-96 | at most two characters, none lower-case: the first two word starts, upper-cased |
| Initials.InitialsStartWithName | src/pages/Profile.tsx:89-96 | a name not starting with a space gives initials starting with its first letter |
| AdminUsers.FindProfile | src/pages/admin/Users.tsx:50 | the first profile with the user's id, or None exactly when there is none |
| AdminUsers.Join | src/pages/admin/Users.tsx:49-55 | one entry per role row in order, each with its role and its first matching profile, {} when profiles are missing |
| AdminUsers.FetchedUsers | src/pages/admin/Users.tsx:34-63 | a roles error keeps the list; no roles data gives none; otherwise one entry per role row |
| AdminUsers.UsersInitials | src/pages/admin/Users.tsx:65-73 | "" gives "U"; otherwise the shared initials |
| AdminUsers.FieldOr | src/pages/admin/Users.tsx:132-140 | `value \|\| fallback`: the field whenever it is present and non-empty, otherwise the fallback |
| AdminUsers.DisplayName | src/pages/admin/Users.tsx:136 | the profile's full name whenever it is present and non-empty, otherwise "Unknown User" |
| AdminUsers.EmailText | src/pages/admin/Users.tsx:140 | the profile's e-mail whenever it is present and non-empty, otherwise "N/A" |
| AdminUsers.AvatarText | src/pages/admin/Users.tsx:132 | at most two characters: the initials of the shown full name when there is one, otherwise "U" |
| AdminUsers.RoleBadge | src/pages/admin/Users.tsx:75-82 | destructive exactly for "admin"; the label is the role upper-cased |
| ProfilePage.OrEmpty | src/pages/Profile.tsx:43-46 | a missing field reads as "" |
| ProfilePage.RoleRows | src/pages/Profile.tsx:36-40 | exactly the user's role rows |
| ProfilePage.RoleOf | src/pages/Profile.tsx:36-48 | the role of the user's only role row; "citizen" on failure, with no or several rows, or an empty role |
| ProfilePage.Loaded | src/pages/Profile.tsx:42-49 | e-mail and metadata fields, "" where missing; the account's creation time; the given role |
| ProfilePage.Saved | src/pages/Profile.tsx:63-69 | saving replaces the metadata with the three edited fields and keeps id, e-mail and creation time |
| ProfilePage.SaveThenLoad | src/pages/Profile.tsx:42-69 | after a save, loading shows the saved name, phone and address, and the old e-mail |
| ProfilePage.AvatarText | src/pages/Profile.tsx:137 | "U" for an empty name, otherwise its initials |
| ProfilePage.Page.constructor | src/pages/Profile.tsx:16-25 | loading, not editing, the default user data with role "citizen" |
| ProfilePage.Page.Edit | src/pages/Profile.tsx:163-231 | typing changes name, phone or address only |
| ProfilePage.Page.FetchUserProfile | src/pages/Profile.tsx:31-55 | no user keeps the data; otherwise the loaded data; loading ends false |
| ProfilePage.Page.HandleSave | src/pages/Profile.tsx:57-87 | loading ends false; no user: nothing else; error: still editing, error toast; success: metadata saved, editing ends, success toast |
| ProfilePage.Page.ClickHeaderButton | src/pages/Profile.tsx:114 | not editing: start editing; editing: save |
| ProfilePage.Page.Cancel | src/pages/Profile.tsx:243-246 | editing ends and the profile is loaded again, discarding edits |
| Sidebar.CitizenNavShape | src/components/layout/Sidebar.tsx:16-22 | five citizen entries, unique paths, none under "/admin" |
| Sidebar.AdminNavShape | src/components/layout/Sidebar.tsx:24-31 | six admin entries, unique paths, all under "/admin" |
| Sidebar.NavItems | src/components/layout/Sidebar.tsx:56 | the admin list exactly when isAdmin, otherwise the citizen list |
| Sidebar.AdminRows | src/components/layout/Sidebar.tsx:43-47 | exactly the user's admin role rows |
| Sidebar.AdminFlag | src/components/layout/Sidebar.tsx:43-50 | true exactly when the read succeeds with one admin row for the user |
| Sidebar.AdminRowsAtMostOne | src/components/layout/Sidebar.tsx:43-48 | with unique (user, role) pairs, a user has at most one admin row, so `.maybeSingle()` never errs |
| Sidebar.AdminFlagWithUniqueRoles | src/components/layout/Sidebar.tsx:43-50 | with unique (user, role) pairs, true exactly when an admin row exists |
| Sidebar.Sidebar.constructor | src/components/layout/Sidebar.tsx:34 | isAdmin starts false |
| Sidebar.Sidebar.CheckAdminRole | src/components/layout/Sidebar.tsx:37-51 | no user leaves the flag; otherwise the flag is the admin check's result |
| Sidebar.Sidebar.Items | src/components/layout/Sidebar.tsx:56 | the rendered list follows the flag |
| Announcements.Listing | src/pages/Announcements.tsx:15-22 | descending by publication date and a permutation of the rows; null data gives none |
| Announcements.PriorityBadge | src/pages/Announcements.tsx:24-57 | urgent destructive, high warning, else secondary; the text is the priority |
| Announcements.EmptyStateIffNoAnnouncements | src/pages/Announcements.tsx:80-87 | the empty-state card shows exactly when there are no announcements |

## Left out

- Network and auth calls are not modelled as calls. The store is the `Store.Store` object. The signed-in user is a parameter (`Option`, None when signed out). A failed or empty read and a failed write are parameters.
- The clock (`Date.now()`, `new Date()`) and `Math.random()` are parameters. `now` is a whole number and the draw is 0–999. The approval's certificate number and issue date use the same `now`, although the source reads the clock twice.
- Asynchrony is not modelled: refetches that are not awaited run to completion in order, and the four dashboard queries under `Promise.all` are four reads of one state.
- Numbers come from `parseFloat`, so NaN and decimals are possible. They are whole numbers here, and an empty or unparsable input, a null, or NaN is `None`; `|| 0` reads `None` as 0. A due date is `None` only for a NULL column, which `new Date(null)` reads as the epoch; a form whose due date is empty or unparsable inserts NULL (the store would reject such a value, which the write-error parameter covers).
- Rendering is not modelled. That covers icons, the announcements' "Published on" and "Expires:" lines, the grievances' "Submitted on" line, dialogs, `window.print`, locale date and money formatting, the Users dialog and the Profile password-reset toast. Only which branch is shown is kept.
- HTML `required` attributes on form inputs are not modelled: the handlers accept any form.
- `toUpperCase` is modelled for ASCII letters only; Unicode case mapping is not.
- Initials.GetInitials: strings are sequences of Unicode scalar values, while `n[0]` and `slice(0, 2)` work on UTF-16 code units. For a name whose words start with characters outside the Basic Multilingual Plane (such as "𝒜lice Bob"), the source takes lone surrogate halves and keeps at most one such character, where the model keeps whole characters.
- Badge lookups such as `variants[status]` with a status that names an `Object.prototype` member are not modelled; such a status is treated as unknown.
- Row ids are natural numbers handed out by the store. `created_at` is the `now` of the insert, certificates and grievances start "pending", and every other column a page does not write (such as `application_date`) starts NULL. These are column defaults that the pages' source does not show.
- The order of rows with equal sort keys is whatever the insertion sort gives. PostgreSQL leaves it unspecified.
- The `loading` flags of the admin dashboard and users pages are not modelled. Their fetches are modelled as functions of the query results.
- AdminPropertyTax.Stats: states only the bounds between the figures; what each figure counts is fixed by its definition and is related to other pages by `AdminDashboard.TaxCollectionMatchesTaxPage`.
- App.tsx (routing), Index.tsx (landing page), PropertyTax.tsx at the top of the repository and src/components/layout/DashboardLayout.tsx (layout) are not part of this model.
