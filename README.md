# ila26 back end — a Dafny model of its services

ila26 is a multi-tenant SaaS back end. A company (a *tenant*) registers through
a one-time code sent by e-mail. Its owner then logs in and maintains the
company profile. Logo, cover image and documents are kept in an S3-compatible
object store, and SIRET and KBIS numbers are checked against the INSEE
company directory. A separate back-office application logs administrators in.

This project models that core in Dafny and proves properties of the model:

- `Auth` (auth.dfy): `AuthService`, a class over the tables of users, code
  rows, tenants, subscriptions, roles and memberships. It covers `sendOtp`,
  `verifyOtp`, `register`, `login` and the unimplemented Google registration.
- `RegisterValidation` (register_dto.dfy): the registration request's field
  rules and password policy. The password regular expression is read as
  ECMAScript defines it.
- `JwtStrategy` (jwt_strategy.dfy): how a verified token's claims resolve to
  the user and the user's membership.
- `AdminAuth` (admin_auth.dfy): `AdminAuthService.Login` and its single
  field update.
- `Enterprise` (enterprise.dfy): `EnterpriseService`, covering the profile
  update with its domain/speciality rule, the logo, cover and document
  uploads with their gates, the deletions, and the address-component
  extractors.
- `Storage` (storage.dfy): `StorageService`, covering filename sanitisation,
  key layout, URLs, the type and size gates, and the bucket as a map from key
  to object.
- `Insee` (insee.dfy): SIRET cleaning and format, the mapping of the
  directory's answer or error, and the KBIS rule.
- `OtpEmail` (otp_email.dfy): the HTML and text bodies of the code e-mail.
- Shared helpers:
  - `Common`: `Option`, `Result`, HTTP failures, JavaScript truthiness.
  - `Strings`: `trim`, `\s`, `includes`, `split('/').pop()`, decimal
    rendering.
  - `Schema`: table rows and the first-match lookup.
  - `Constants`: enums.
  - `Crypto`: stand-ins for bcrypt and JWT.

The model keeps the program's observable quirks as they are written:

- `register` verifies, and so consumes, the code before it checks the password
  confirmation and the e-mail (`Auth.AuthService.Register`).
- `login` fetches at most one active-tenant membership (`take: 1`). Its
  "owner, else the first" preference therefore never chooses
  (`Auth.PrimaryOfAtMostOne`).
- An image replacement deletes `folder/tenantId/lastSegment`. The upload wrote
  to `folder/folder/tenantId/timestamp-name`, so the old image is never
  removed (`Enterprise.ReplacementMissesUploadedImage`).
- The `Not Found` raised inside `validateSiret`'s `try` is caught by its own
  `catch`, and the caller sees 500 "Failed to validate SIRET"
  (`Insee.MissingEstablishmentIs500`).
- The password lookaheads use `.*`, which does not cross a line terminator
  (`RegisterValidation.LineBreakFirstIsRefused`).
- A SIRET made only of white space makes every KBIS acceptable
  (`Insee.BlankSiretAcceptsAnyKbis`).
- `expiresInMinutes || 10` turns 0 into 10 as well (`OtpEmail.ExpiresIn`).
- A locality with an empty name hides the district (`Enterprise.EmptyLocalityHidesDistrict`).

Everything outside the program is a parameter:

- the clock (`now`, `timestamp`, and the subscription's `periodEnd`);
- the `Math.random()` draw;
- the ids the database generates;
- the outcome of each object-store call (`putFailure`, `deleteFailure`);
- the answer or error of the INSEE lookup.

Tables are sequences in row order, and lookups take the first match in that
order.

## Model

| member | source | states |
|---|---|---|
| Schema.FindFirst | apps/api/src/auth/auth.service.ts:37-39 | the index found satisfies the condition and no earlier row does; None exactly when no row does |
| Crypto.Hash | apps/api/src/auth/auth.service.ts:125 | a stored hash is never empty |
| Crypto.CompareIsExact | apps/api/src/auth/auth.service.ts:92 | a secret matches a hash exactly when the hash was made from that secret |
| Auth.OtpCodeFrom | apps/api/src/auth/auth.service.ts:29 | the drawn code lies in [100000, 999999] |
| Auth.OtpCodeHasSixDigits | apps/api/src/auth/auth.service.ts:29 | the code sent always has six digits |
| Auth.LatestOtp | apps/api/src/auth/auth.service.ts:75-78 | the row read is one for this e-mail with the greatest `createdAt`; None exactly when the e-mail has no row |
| Auth.LatestOtpDependsOnKeys | apps/api/src/auth/auth.service.ts:75-78 | which row is latest depends only on e-mails and creation times, so consuming or resetting a code does not change it |
| Auth.LatestOtpIsTheRow | apps/api/src/auth/auth.service.ts:36-39 | with one row per e-mail, the latest row is that row |
| Auth.FirstOtp | apps/api/src/auth/auth.service.ts:37-39 | the first row for the e-mail in row order; None exactly when the e-mail has no row |
| Auth.MarkUsed | apps/api/src/auth/auth.service.ts:98-101 | only the `used` flag of that row changes, to true; e-mails, creation times and the one-row-per-e-mail and unique-id invariants are kept |
| Auth.OtpAfterSend | apps/api/src/auth/auth.service.ts:33-59 | an existing row for the e-mail is overwritten in place, or exactly one row is added; other rows are untouched; one row per e-mail is kept; the row then read holds the new hash, `expiresAt = now + 10 min` and `used = false` |
| Auth.VerifyCheck | apps/api/src/auth/auth.service.ts:80-95 | without a row for the e-mail it fails BadRequest "OTP not found"; it succeeds exactly when the latest row is unused, not expired (`now <= expiresAt`) and matches the code, and then names that row |
| Auth.VerifyWrongCodeIsUnauthorized | apps/api/src/auth/auth.service.ts:92-95 | for any table, an unused, unexpired latest row whose hash does not match the code fails Unauthorized "Invalid OTP" |
| Auth.VerifyConsumesOnce | apps/api/src/auth/auth.service.ts:84-101 | after a successful verification, every later one for that e-mail fails "OTP has already been used", whatever the code and the time |
| Auth.VerifyExpiredWhateverCode | apps/api/src/auth/auth.service.ts:88-90 | an expired unused code fails "OTP has expired" before the code is compared |
| Auth.SendThenVerify | apps/api/src/auth/auth.service.ts:33-95 | the code just sent verifies until it expires; any other code fails Unauthorized "Invalid OTP" |
| Auth.PrimaryMembership | apps/api/src/auth/auth.service.ts:244 | the first owner membership when one is fetched; the first membership when none is an owner; None exactly when nothing is fetched |
| Auth.ActiveMembership | apps/api/src/auth/auth.service.ts:216-232 | the first membership of the user, in row order, whose tenant exists and is ACTIVE; None exactly when there is none |
| Auth.PrimaryOfAtMostOne | apps/api/src/auth/auth.service.ts:229-244 | with at most one fetched membership, the choice is that membership, owner or not |
| Auth.NewRowsKeepKeysUnique | apps/api/src/auth/auth.service.ts:130-187 | the rows a registration adds with fresh keys keep every key unique |
| Auth.NewRowsKeepLinks | apps/api/src/auth/auth.service.ts:176-184 | the new membership's tenant and role resolve, as do all earlier ones |
| Auth.AuthService.SendOtp | apps/api/src/auth/auth.service.ts:18-72 | a user with this e-mail gives Conflict and leaves the codes unchanged; otherwise the table becomes `OtpAfterSend` of the drawn code's hash |
| Auth.AuthService.VerifyOtp | apps/api/src/auth/auth.service.ts:74-104 | every failure of `VerifyCheck` is returned with the table unchanged; success marks only the row read as used |
| Auth.AuthService.Register | apps/api/src/auth/auth.service.ts:106-213 | a failed code check changes nothing; after it, the code stays consumed; a password mismatch, an existing e-mail (Conflict) or a missing system Admin role creates no records; success adds exactly one user (`emailVerified`), one ACTIVE tenant owned by that user, one FREE subscription (`maxUsers` 1, `temp_<userId>`) and one owner membership with the Admin role, and signs {sub, email, tenantId, role name} |
| Auth.AuthService.Login | apps/api/src/auth/auth.service.ts:215-273 | an unknown e-mail, an empty hash and a wrong password all give the same Unauthorized; without an active-tenant membership, "No active tenant found"; otherwise the token's tenant and role are those of the first active-tenant membership |
| Auth.AuthService.GoogleOAuthRegister | apps/api/src/auth/auth.service.ts:275-280 | always fails with BadRequest "Google OAuth registration not yet implemented" |
| RegisterValidation.FirstLine | apps/api/src/auth/dto/register.dto.ts:46 | the prefix of the password before the first line terminator, the only text `.*` can span |
| RegisterValidation.AnyIn | apps/api/src/auth/dto/register.dto.ts:46 | true exactly when some character is in the class |
| RegisterValidation.MatchesPasswordPattern | apps/api/src/auth/dto/register.dto.ts:46 | the first-line test holds exactly when each of the four lookaheads holds at the start of the password |
| RegisterValidation.MeetsPasswordPolicy | apps/api/src/auth/dto/register.dto.ts:44-50 | a password shorter than eight characters fails; an accepted one holds a character of every class |
| RegisterValidation.ValidRegisterDto | apps/api/src/auth/dto/register.dto.ts:20-54 | an accepted request has every text field non-empty and a password meeting the policy; an empty confirmation is refused |
| RegisterValidation.PolicyFromWitnesses | apps/api/src/auth/dto/register.dto.ts:44-50 | eight or more characters without a line break, with one character of each class anywhere, meet the policy |
| RegisterValidation.PolicyAllowsAnySuffix | apps/api/src/auth/dto/register.dto.ts:46 | appending any text to an accepted password keeps it accepted (no end anchor) |
| RegisterValidation.PolicyAllowsPrefixWithoutLineBreak | apps/api/src/auth/dto/register.dto.ts:46 | prefixing text without a line break keeps an accepted password accepted |
| RegisterValidation.LineBreakFirstIsRefused | apps/api/src/auth/dto/register.dto.ts:44-50 | "\nAbcdef1!" is refused although every class occurs; "Abcdef1!\n" is accepted |
| RegisterValidation.ConfirmationNotHeldToPolicy | apps/api/src/auth/dto/register.dto.ts:24-54 | a request passes validation with a confirmation that is not a valid password and differs from the password |
| JwtStrategy.Validate | apps/api/src/auth/strategies/jwt.strategy.ts:23-55 | success exactly when the user exists and has a membership of the token's tenant; an unknown user or a missing membership gives the matching Unauthorized; the result carries the token's tenant id, a stored membership of that user and tenant, its tenant and role rows, and the stored role's name |
| JwtStrategy.MembershipOf | apps/api/src/auth/strategies/jwt.strategy.ts:24-37 | the first membership of the user for the token's tenant; None exactly when there is none |
| JwtStrategy.RoleClaimIgnored | apps/api/src/auth/strategies/jwt.strategy.ts:48-54 | the result does not depend on the token's `role` claim |
| AdminAuth.StampLogin | apps/admin-api/src/auth/auth.service.ts:29-33 | only `lastLoginAt` of that row changes, to `now`; unique keys are kept |
| AdminAuth.Accepts | apps/admin-api/src/auth/auth.service.ts:16-27 | true exactly when the administrator found by e-mail holds the hash of exactly this password |
| AdminAuth.AdminAuthService.Login | apps/admin-api/src/auth/auth.service.ts:15-51 | every credential failure gives Unauthorized "Invalid credentials" and leaves the table unchanged; success stamps the row and returns the row's id, e-mail and role in both the token and the response |
| AdminAuth.WrongPasswordLooksLikeUnknownEmail | apps/admin-api/src/auth/auth.service.ts:20-27 | a wrong password is refused like an unknown e-mail |
| Strings.Trim | apps/api/src/external/insee/insee.service.ts:76 | the result is a slice of the input with only white space before and after it, and neither starts nor ends with white space; it is empty exactly when the input is blank |
| Strings.TrimPadded | apps/api/src/mail/templates/otp-email.template.ts:42 | trimming white-space padding gives back exactly the text inside it |
| Strings.StripWhitespace | apps/api/src/external/insee/insee.service.ts:51 | no white space is left; a blank text gives "" and a text without white space is unchanged |
| Strings.StripWhitespaceConcat | apps/api/src/external/insee/insee.service.ts:51 | stripping a concatenation concatenates the stripped parts, so every other character is kept in order |
| Strings.StripWhitespaceIdempotent | apps/api/src/external/insee/insee.service.ts:51 | stripping twice equals stripping once |
| Strings.LastSegment | apps/api/src/enterprise/enterprise.service.ts:310 | the suffix after the last '/', holding no '/' |
| Strings.NatToString | apps/api/src/storage/storage.service.ts:55-58 | the decimal rendering is a non-empty run of digits |
| Strings.NatToStringRoundTrip | apps/api/src/storage/storage.service.ts:55-58 | parsing the rendering gives the number back |
| Strings.NatToStringLength | apps/api/src/auth/auth.service.ts:29 | a number in [10^(k-1), 10^k) renders with k digits |
| Storage.SanitizeFilename | apps/api/src/storage/storage.service.ts:56 | same length; each character is kept when in [a-zA-Z0-9.-] and becomes '_' otherwise; no '/' remains |
| Storage.SanitizeIdempotent | apps/api/src/storage/storage.service.ts:56 | sanitising twice equals sanitising once |
| Storage.SanitizeKeepsSafeNames | apps/api/src/storage/storage.service.ts:56 | a name of safe characters comes through unchanged |
| Storage.ConfigFrom | apps/api/src/storage/storage.service.ts:28-35 | the endpoint is host ":" port, each the configured value when present and non-empty, else "localhost" and "9000"; SSL is on exactly for the text "true"; an absent or empty prefix falls back to "ila26" |
| Storage.FileUrl | apps/api/src/storage/storage.service.ts:134-137 | https exactly when SSL is on; the URL ends with "/" + bucket prefix + "/" + key |
| Storage.StoredName | apps/api/src/storage/storage.service.ts:55-56 | the file part `timestamp-name` holds no '/' |
| Storage.FileKey | apps/api/src/storage/storage.service.ts:54-59 | `bucket/folder/tenantId/timestamp-name` for a non-empty folder, else `bucket/tenantId/timestamp-name`; the last segment is the stored name |
| Storage.FileUrlEndsWithStoredName | apps/api/src/storage/storage.service.ts:57-76 | the last segment of an upload's URL is its stored name |
| Storage.FileKeysDifferByTimestamp | apps/api/src/storage/storage.service.ts:55-59 | uploads at different times get different keys |
| Storage.ValidateFileType | apps/api/src/storage/storage.service.ts:142-144 | true exactly when some allowed type equals the file's mimetype; nothing passes an empty list |
| Storage.ValidateFileSize | apps/api/src/storage/storage.service.ts:149-151 | true exactly when the size is at most the limit, so never for a negative limit |
| Storage.FileSizeGate | apps/api/src/storage/storage.service.ts:149-151 | the limit is inclusive and monotone |
| Storage.StorageService.constructor | apps/api/src/storage/storage.service.ts:28-35 | the configuration is `ConfigFrom` of the environment |
| Storage.StorageService.UploadFile | apps/api/src/storage/storage.service.ts:51-91 | a failed put gives 500 "Failed to upload file: <message>" and leaves the bucket unchanged; otherwise the object sits under `FileKey` and the answer is key, `FileUrl(key)`, bucket prefix, size and type |
| Storage.StorageService.DeleteFile | apps/api/src/storage/storage.service.ts:96-110 | a failed delete gives 500 "Failed to delete file: <message>" and leaves the bucket unchanged; otherwise nothing remains under the key |
| Insee.CleanSiret | apps/api/src/external/insee/insee.service.ts:51 | no white space is left; a SIRET without white space is unchanged and a blank one gives "" |
| Insee.CleanSiretConcat | apps/api/src/external/insee/insee.service.ts:51 | cleaning a concatenation concatenates the cleaned parts |
| Insee.CleanSiretJoinsGroups | apps/api/src/external/insee/insee.service.ts:50-52 | groups without white space, separated by white space, are joined in their order |
| Insee.IsSiretFormat | apps/api/src/external/insee/insee.service.ts:52 | an accepted SIRET is exactly fourteen ASCII digits, with no white space; any other length fails |
| Insee.CompanyName | apps/api/src/external/insee/insee.service.ts:75-76 | the denomination when truthy, else the trimmed "first-name surname" |
| Insee.SurnameAlone | apps/api/src/external/insee/insee.service.ts:75-76 | without a first name the name is the surname alone |
| Insee.StreetLine | apps/api/src/external/insee/insee.service.ts:77-79 | the trimmed "number type name" when there is a street number, else "" |
| Insee.CompanyInfo | apps/api/src/external/insee/insee.service.ts:72-85 | every field is the cleaned SIRET, the legal unit's or the address's value, or "" |
| Insee.MapLookupError | apps/api/src/external/insee/insee.service.ts:86-104 | 404 gives Not Found; 401 or 403 give 503 "authentication failed"; otherwise the response's own status (500 when absent or 0) and message (a generic one when absent) |
| Insee.ValidateSiret | apps/api/src/external/insee/insee.service.ts:42-106 | a missing key gives 503 first; a cleaned SIRET that is not 14 digits gives 400 before any lookup; success exactly for an answered lookup holding an establishment and its legal unit, returning the cleaned SIRET; a failed lookup is mapped by `MapLookupError`; any other answer gives 500 |
| Insee.SpacesInSiretIgnored | apps/api/src/external/insee/insee.service.ts:50-57 | a SIRET with white space is answered like the same digits written together |
| Insee.MissingEstablishmentIs500 | apps/api/src/external/insee/insee.service.ts:61-68 | an answer without an establishment gives 500, while a directory 404 gives Not Found |
| Insee.Siren | apps/api/src/external/insee/insee.service.ts:121-122 | the first nine characters (or fewer) of the cleaned SIRET |
| Insee.ValidateKbis | apps/api/src/external/insee/insee.service.ts:111-133 | a missing key gives 503; otherwise true exactly when a non-empty SIRET's SIREN occurs in the KBIS or the KBIS has at least nine characters |
| Insee.LongKbisAlwaysAccepted | apps/api/src/external/insee/insee.service.ts:130-132 | any KBIS of nine or more characters is accepted, whatever the SIRET |
| Insee.KbisWithSirenAccepted | apps/api/src/external/insee/insee.service.ts:120-127 | a KBIS containing the SIREN is accepted, even when short |
| Insee.BlankSiretAcceptsAnyKbis | apps/api/src/external/insee/insee.service.ts:120-127 | a white-space-only SIRET has an empty SIREN, so every KBIS is accepted |
| OtpEmail.ExpiresIn | apps/api/src/mail/templates/otp-email.template.ts:8 | the given minutes when non-zero; 10 when absent or 0; never 0 |
| OtpEmail.OtpEmailHtml | apps/api/src/mail/templates/otp-email.template.ts:7-43 | the trimmed body is the template without its outer padding, whatever white space the code holds; it includes the code and the validity sentence |
| OtpEmail.OtpEmailText | apps/api/src/mail/templates/otp-email.template.ts:45-62 | the same for the plain-text body |
| OtpEmail.HtmlTemplateEnds | apps/api/src/mail/templates/otp-email.template.ts:10-42 | the HTML template is padded by white space only and starts and ends with text, so the trimmed body starts and ends with text |
| OtpEmail.TextTemplateEnds | apps/api/src/mail/templates/otp-email.template.ts:48-61 | the same for the text template |
| OtpEmail.TrimOfTemplate | apps/api/src/mail/templates/otp-email.template.ts:42 | trimming a filled-in template removes only the padding |
| OtpEmail.AddressNotUsed | apps/api/src/mail/templates/otp-email.template.ts:7-62 | neither body depends on the recipient's address |
| OtpEmail.DefaultValidityIsTenMinutes | apps/api/src/mail/templates/otp-email.template.ts:8 | with no validity, or 0, both bodies announce ten minutes |
| OtpEmail.TenReadsTen | apps/api/src/mail/templates/otp-email.template.ts:55 | the validity sentences for ten minutes, spelled out |
| Enterprise.DomainChange | apps/api/src/enterprise/enterprise.service.ts:115-144 | an unknown domain gives Not Found; a truthy speciality must belong to the new domain (else 400) and is kept; without one the speciality is cleared |
| Enterprise.SpecialityChange | apps/api/src/enterprise/enterprise.service.ts:145-164 | an unknown speciality gives Not Found; one outside the tenant's domain gives 400; otherwise it is set |
| Enterprise.ApplyProfileUpdate | apps/api/src/enterprise/enterprise.service.ts:101-164 | supplied name, SIRET and KBIS replace the old ones; every other field keeps its value; domain and speciality change only as `DomainChange` or `SpecialityChange` say |
| Enterprise.ProfileUpdateKeepsSpecialityConsistent | apps/api/src/enterprise/enterprise.service.ts:115-164 | an accepted update keeps the speciality within the tenant's domain |
| Enterprise.EmptyProfileUpdateChangesNothing | apps/api/src/enterprise/enterprise.service.ts:101-173 | an update supplying nothing writes the tenant back unchanged |
| Enterprise.DomainWithoutSpecialityClears | apps/api/src/enterprise/enterprise.service.ts:128-144 | a new domain with an absent or empty speciality clears the speciality |
| Enterprise.ImageSlot.WithUrl | apps/api/src/enterprise/enterprise.service.ts:328-331 | only the slot's URL field changes |
| Enterprise.ImageGate | apps/api/src/enterprise/enterprise.service.ts:288-304 | passes exactly for jpeg, jpg, png or webp within the slot's inclusive limit (2 MiB for a logo, 5 MiB for a cover); the type is checked before the size |
| Enterprise.OldImageKey | apps/api/src/enterprise/enterprise.service.ts:306-313 | a key exists exactly when the URL is truthy with a non-empty last segment, and is `folder/tenantId/lastSegment` |
| Enterprise.NewImageKey | apps/api/src/enterprise/enterprise.service.ts:320-325 | `folder/folder/tenantId/timestamp-name`, whose last segment is the stored name |
| Enterprise.ReplacementMissesUploadedImage | apps/api/src/enterprise/enterprise.service.ts:306-325 | the key a replacement deletes is never the key the previous upload wrote |
| Enterprise.AfterDelete | apps/api/src/enterprise/enterprise.service.ts:307-317 | no key is added and no object changes; only the deleted key can go, and it goes unless the delete failed |
| Enterprise.DocumentGate | apps/api/src/enterprise/enterprise.service.ts:411-435 | in order: tenant Not Found, category Not Found, over 10 MiB; passes exactly when all three hold |
| Enterprise.DocumentKey | apps/api/src/enterprise/enterprise.service.ts:509-514 | `documents/tenantId/lastSegment`, when the last segment is non-empty |
| Enterprise.DocumentDeletionMissesUpload | apps/api/src/enterprise/enterprise.service.ts:438-443 | the key a document deletion removes is never the key its upload wrote, so the stored object stays |
| Enterprise.TenantDocument | apps/api/src/enterprise/enterprise.service.ts:498-503 | a row with this id and this tenant; None exactly when no row has both |
| Enterprise.RemoveAtKeepsOthers | apps/api/src/enterprise/enterprise.service.ts:519-522 | removing one row keeps every other row and keeps ids unique |
| Enterprise.EnterpriseService.UpdateProfile | apps/api/src/enterprise/enterprise.service.ts:92-174 | a missing tenant gives Not Found; otherwise the row becomes `ApplyProfileUpdate` of it, or nothing changes when that fails; the speciality invariant is kept |
| Enterprise.EnterpriseService.UploadImage | apps/api/src/enterprise/enterprise.service.ts:279-399 | a missing tenant and a failed gate change neither the tenants nor the bucket; otherwise the outcome is `ImageStored` |
| Enterprise.EnterpriseService.StoreImage | apps/api/src/enterprise/enterprise.service.ts:306-336 | the old image's key is deleted first (a failure is ignored); a failed put gives 500 and keeps the row; otherwise the row points at the new URL and the answer is URL and key |
| Enterprise.EnterpriseService.DeleteImageFile | apps/api/src/enterprise/enterprise.service.ts:306-317 | the bucket loses the key unless there is none or the delete fails |
| Enterprise.EnterpriseService.UploadDocument | apps/api/src/enterprise/enterprise.service.ts:404-472 | a failed gate changes nothing; a failed put gives 500 and adds no row; otherwise exactly one document row is added, pointing at the stored file, and the answer holds its id, name, URL, size, type and category |
| Enterprise.EnterpriseService.DeleteDocument | apps/api/src/enterprise/enterprise.service.ts:497-525 | only a document with this id and this tenant is found, else Not Found with nothing changed; a found row is removed and its key deleted (a failure is ignored); no other tenant's document is touched |
| Enterprise.EnterpriseService.DeleteImage | apps/api/src/enterprise/enterprise.service.ts:539-596 | a missing tenant gives Not Found; otherwise the key is deleted (a failure is ignored) and the URL field is cleared whatever the store answered |
| Enterprise.LongNameOfType | apps/api/src/enterprise/enterprise.service.ts:266-274 | the `long_name` of the first component of the type, or "" when none has it |
| Enterprise.ExtractCity | apps/api/src/enterprise/enterprise.service.ts:260-264 | the first locality's name, even an empty one; without a locality, the first second-level district's name or "" |
| Enterprise.EmptyLocalityHidesDistrict | apps/api/src/enterprise/enterprise.service.ts:260-264 | a locality with an empty name gives "" although a named district follows |
| Enterprise.LongNameSkipsOtherType | apps/api/src/enterprise/enterprise.service.ts:266-274 | a component of another type in front does not change the answer |
| Enterprise.ExtractorsReadTheirType | apps/api/src/enterprise/enterprise.service.ts:266-274 | the postal-code and country extractors read only components of their own type |
| Enterprise.ExtractPostalCode | apps/api/src/enterprise/enterprise.service.ts:266-269 | the name of the first postal-code component, or "" when there is none |
| Enterprise.ExtractCountry | apps/api/src/enterprise/enterprise.service.ts:271-274 | the name of the first country component, or "" when there is none |

## Left out

- Mail delivery (`MailService`, Mailtrap). `sendOtp` swallows its failure, so leaving it out changes no outcome.
- bcrypt. `Crypto.Hash` is an injective stand-in, so salting and cost are not modelled: two hashes of one secret are equal here. bcrypt also looks only at the first 72 bytes of a secret, so two long passwords that agree on those bytes match each other's hash; the stand-in tells them apart.
- JWT signing, secrets and expiry. A token is the claims record it carries. Signature and expiry checks belong to the JWT library.
- The clock, `Math.random()` and `Date.now()` are parameters. The code is computed over real numbers rather than IEEE doubles.
- Prisma and its transactions. A transaction is computed on copies and committed together. Generated ids are parameters that the caller guarantees fresh. Unique keys are an invariant of each service class.
- Auth.AuthService.Login: every membership's tenant and role row exists, as part of the class invariant `Valid`. A dangling foreign key is not modelled.
- JwtStrategy.Validate: requires every membership's tenant and role row to exist, as `Auth.AuthService.Login` does. A dangling foreign key is not modelled.
- Auth.AuthService.Register: `currentPeriodEnd` is the parameter `periodEnd`. The source sets it to one calendar year after now, and calendar arithmetic is not modelled.
- Text is a sequence of Unicode code points, whereas JavaScript counts UTF-16 code units. This affects `kbis.length` and `substring(0, 9)`, and sanitisation of characters outside the Basic Multilingual Plane, which JavaScript turns into two '_'.
- `@IsEmail` and `@IsString` on the request objects. `SendOtpDto`, `VerifyOtpDto` and `GoogleOAuthRegisterDto` are not part of this model.
- OtpEmail.ExpiresIn: minutes are whole numbers. A fractional `expiresInMinutes` cannot be rendered in this model.
- OtpEmail.DefaultValidityIsTenMinutes: states that each body includes `HtmlExpiry(10)` / `TextExpiry(10)`. The spelled-out sentence is stated separately by `OtpEmail.TenReadsTen`, because the literal next to the large template constant is too costly for the solver.
- The S3 client calls themselves, and `getSignedDownloadUrl`. Only their success or failure is modelled.
- Google Places, and with it `updateAddress`. The component extractors are modelled; the HTTP call is not.
- The INSEE HTTP request. Its outcome is the `LookupOutcome` parameter.
- The read-only queries `getProfile`, `getDocuments`, `getActivityDomains`, `getSpecialitiesByActivity`, `getDocumentCategories` and `getUserTenantMembership`. They compute nothing beyond a database query and a projection.
- `validateSiret` and `validateKbis` of the enterprise service. They only forward to `Insee.ValidateSiret` and `Insee.ValidateKbis`.
- Enterprise.EnterpriseService.UpdateProfile: returns the updated row, not the `include` of its domain and speciality rows.
- Controllers, modules, `main.ts`, the seed script and the other operational scripts. They are routing, wiring and tooling.
- Concurrency: each method runs alone, with no interleaving of requests.
