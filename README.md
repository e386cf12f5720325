# User accounts, refund requests, replies, payment rows and mail codes — a Dafny model

This project models the logic-bearing core of a small Spring shop/community backend:

- **User account service** (`UserService`): Kakao social find-or-create (`카카오사용자생성또는조회`), local
  registration (`회원가입`), login (`로그인`), the edit-form and my-page lookups, the owner-checked
  mutators (`회원정보수정`, `프로필이미지삭제`, `포인트충전`), and the two helpers `사용자이름조회` and
  `소셜회원가입`. The service is a class whose `store` field is the user repository's content (rows keyed
  by id, ids drawn from a counter, the unique username constraint enforced on every write). Every
  method states its error cases and its whole new store. "Error cases" means the exceptions the
  service itself throws; the collaborators' own exception paths are listed under "Left out".
- **Refund request entity** (`RefundRequest`): a class with the entity's fields. The builder constructor
  sets PENDING. `approve`/`reject` change only the fields they assign, and three status queries read
  only the status.
- **Reply entity** (`Reply`): null-safe ownership and the validation done by `update`.
- **Payment list row** (`PaymentResponse.ListDTO`): a pure record builder.
- **Six-digit mail code** (`MailUtils.generateRandomCode`): a pure function of the random draw.

Modules: `Common` (nullable references, exceptions, results), `Decimal` (Java's decimal printing of
`int`/`Long` and its parser), `MailUtils`, `Replies`, `PaymentResponse`, `Refunds`, `UserAccounts`.

Parameters stand for what the core receives from outside:
- The random draws: the mail code's `nextInt(900_000)` and the salt the password encoder draws.
- The results of the file helper: whether an upload is an image, the stored file name or an I/O
  failure, and whether deleting the old file succeeded.
- The timestamp formatter.
- The unshown collaborators `PasswordEncoder.encode`/`matches` and `User.isOwner`/`update`/
  `chargePoint`. These are constant function fields of the service. Their results are arbitrary,
  but, being total functions, they are taken to return normally: none of them can throw.

Where the code and the design description disagree, the model follows the code:
- `approve` and `reject` do not check that the request is PENDING. `RejectThenApprove` shows that a
  terminal status can be overwritten.
- `포인트충전` does not reject non-positive amounts.
- A Kakao user's provider is `KAKAO`.
- A missing nickname or id is printed as `"null"` in the derived username, not refused.
- Login with an unknown username throws a `NullPointerException` (see Findings).
- In `회원가입`, the 400 "image files only" exception is thrown inside the `try`. The `catch (Exception e)`
  there rewraps it, so the caller sees a runtime exception wrapping the 400 (`Wrapped(BadRequest(…))`).
- `Reply.update` validates the new text but never assigns `comment`.

## Model

| member | source | states |
|---|---|---|
| Decimal.NatToString | demo_ssr_v1/src/main/java/org/example/demo_ssr_v1/_core/utils/MailUtils.java:15 | `String.valueOf` of a non-negative number is a non-empty string of decimal digits, with no leading zero unless the number is 0 |
| Decimal.ParseNatToString | demo_ssr_v1/src/main/java/org/example/demo_ssr_v1/_core/utils/MailUtils.java:13-15 | parsing the printed number gives the number back |
| Decimal.NatToStringInjective | demo_ssr_v1/src/main/java/org/example/demo_ssr_v1/_core/utils/MailUtils.java:15 | distinct numbers print differently |
| Decimal.NatToStringLength | demo_ssr_v1/src/main/java/org/example/demo_ssr_v1/_core/utils/MailUtils.java:12-15 | a number in [10^(k-1), 10^k) prints as exactly k characters |
| Decimal.LongToString | demo_ssr_v1/src/main/java/org/example/demo_ssr_v1/user/UserService.java:141 | `Long.toString`: digits only for a non-negative id, a leading '-' and then digits for a negative one |
| Decimal.ParseNullableLongToString | demo_ssr_v1/src/main/java/org/example/demo_ssr_v1/user/UserService.java:141 | what string concatenation appends for a `Long` reference (null included) can be read back to that reference |
| Decimal.NullableLongToStringInjective | demo_ssr_v1/src/main/java/org/example/demo_ssr_v1/user/UserService.java:141 | distinct `Long` references (null included) are appended as distinct strings |
| MailUtils.CodeValue | demo_ssr_v1/src/main/java/org/example/demo_ssr_v1/_core/utils/MailUtils.java:13 | for a draw in [0, 900000), `100_000 + draw` lies in [100000, 999999] |
| MailUtils.GenerateRandomCode | demo_ssr_v1/src/main/java/org/example/demo_ssr_v1/_core/utils/MailUtils.java:7-16 | the code has exactly six characters, all decimal digits, the first not '0', and parses back to `100000 + draw` |
| MailUtils.GenerateRandomCodeInjective | demo_ssr_v1/src/main/java/org/example/demo_ssr_v1/_core/utils/MailUtils.java:13-15 | distinct draws give distinct codes |
| MailUtils.GenerateRandomCodeOnto | demo_ssr_v1/src/main/java/org/example/demo_ssr_v1/_core/utils/MailUtils.java:13-15 | every six-digit code without a leading zero comes from exactly one draw in range |
| Replies.BuildReply | demo_ssr_v1/src/main/java/org/example/demo_ssr_v1/reply/Reply.java:35-40 | the builder stores the comment, user and board and leaves id and creation time unset |
| Replies.IsOwnerUnique | demo_ssr_v1/src/main/java/org/example/demo_ssr_v1/reply/Reply.java:43-55 | at most one id owns a reply: two ids that both pass `isOwner` are equal, non-null and equal to the reply's user id |
| Replies.IsOwnerExactly | demo_ssr_v1/src/main/java/org/example/demo_ssr_v1/reply/Reply.java:43-55 | `isOwner` is false when the reply's user, the given id or the user's id is null; otherwise it is true exactly when the two ids are equal |
| Replies.TrimEmptyIffBlank | demo_ssr_v1/src/main/java/org/example/demo_ssr_v1/reply/Reply.java:59 | `s.trim().isEmpty()` holds exactly when every character of s is at most U+0020 |
| Replies.Update | demo_ssr_v1/src/main/java/org/example/demo_ssr_v1/reply/Reply.java:58-68 | a null or blank text fails with 400 "댓글 내용은 필수 입니다." before the length check; a text over 500 characters fails with 400 "댓글은 500자 이하여야 합니다."; otherwise the call succeeds and the reply, comment included, is unchanged |
| Replies.UpdateKeepsComment | demo_ssr_v1/src/main/java/org/example/demo_ssr_v1/reply/Reply.java:58-68 | an accepted new text different from the stored comment is still not the comment afterwards |
| PaymentResponse.NewListDTO | demo_ssr_v1/src/main/java/org/example/demo_ssr_v1/payment/PaymentResponse.java:87-101 | id, merchantUid, impUid and amount are copied; a null isRefundable becomes false; the timestamp is formatted only when present; `status` stays null; the paid label appears exactly when the status equals "paid" and the refunded label otherwise, null included |
| PaymentResponse.RefundableNeverNull | demo_ssr_v1/src/main/java/org/example/demo_ssr_v1/payment/PaymentResponse.java:91 | the row's refundable flag is never null and is true exactly when the argument is `TRUE` |
| PaymentResponse.StatusDisplayDependsOnStatusOnly | demo_ssr_v1/src/main/java/org/example/demo_ssr_v1/payment/PaymentResponse.java:96-100 | the label depends on the payment status alone, and only "paid" gets the paid label |
| Refunds.RefundRequest.constructor | demo_ssr_v1/src/main/java/org/example/demo_ssr_v1/refund/RefundRequest.java:61-67 | a built request holds the given user, payment and reason, status PENDING, no reject reason and no id; it fits its columns exactly when the reason does |
| Refunds.RefundRequest.Approve | demo_ssr_v1/src/main/java/org/example/demo_ssr_v1/refund/RefundRequest.java:70-72 | from any status, the status becomes APPROVED and no other field changes |
| Refunds.RefundRequest.Reject | demo_ssr_v1/src/main/java/org/example/demo_ssr_v1/refund/RefundRequest.java:75-78 | from any status, the status becomes REJECTED and the reject reason is the argument; no other field changes; the row fits its 500-character columns exactly when both reasons do |
| Refunds.ExactlyOneStatus | demo_ssr_v1/src/main/java/org/example/demo_ssr_v1/refund/RefundRequest.java:81-93 | exactly one of `isPending`, `isApproved`, `isRejected` holds |
| Refunds.StatusQueriesReadOnlyStatus | demo_ssr_v1/src/main/java/org/example/demo_ssr_v1/refund/RefundRequest.java:81-93 | the three queries are determined by `status` alone |
| Refunds.RejectThenApprove | demo_ssr_v1/src/main/java/org/example/demo_ssr_v1/refund/RefundRequest.java:69-78 | the entity does not guard its transitions: a rejected request can still be approved, and its reject reason stays |
| UserAccounts.SocialUsernameIdentifiesAccount | demo_ssr_v1/src/main/java/org/example/demo_ssr_v1/user/UserService.java:141 | two Kakao profiles get the same username `nickname + "_" + id` exactly when their ids are equal and their nicknames print alike |
| UserAccounts.NewKakaoUser | demo_ssr_v1/src/main/java/org/example/demo_ssr_v1/user/UserService.java:149-159 | the first-login user has the derived username, email `username + "@kakao.com"`, provider KAKAO and the given password hash; its profile image is the remote URL exactly when that URL is non-null and non-empty |
| UserAccounts.ToEntity | demo_ssr_v1/src/main/java/org/example/demo_ssr_v1/user/UserService.java:205 | the entity built from the join form has the form's username and email, the stored file name and no id |
| UserAccounts.UserStore.FindById | demo_ssr_v1/src/main/java/org/example/demo_ssr_v1/user/UserService.java:252-253 | `findById` finds a row exactly when the id is a key, and returns that row |
| UserAccounts.UserStore.FindByUsername | demo_ssr_v1/src/main/java/org/example/demo_ssr_v1/user/UserService.java:338-340 | `findByUsername` finds a row exactly when that username is present, and returns the stored row carrying it |
| UserAccounts.UserStore.Save | demo_ssr_v1/src/main/java/org/example/demo_ssr_v1/user/UserService.java:209 | `save` inserts a new user under the next id unless its username is taken, or replaces an existing row unless another row holds the username; an id with no row is stale; a failure leaves the store unchanged; validity is kept |
| UserAccounts.SavedUserIsFound | demo_ssr_v1/src/main/java/org/example/demo_ssr_v1/user/UserService.java:161-163 | after a successful insert, the username lookup returns the saved user |
| UserAccounts.KakaoLink | demo_ssr_v1/src/main/java/org/example/demo_ssr_v1/user/UserService.java:140-166 | find-or-create returns the user with the derived username, and the store then holds it; an existing user comes back with the store unchanged; otherwise exactly the new Kakao user is added under the next id |
| UserAccounts.KakaoLinkIdempotent | demo_ssr_v1/src/main/java/org/example/demo_ssr_v1/user/UserService.java:140-166 | a second find-or-create with the same profile, whatever hash it draws, returns the same user and writes nothing; the first grows the store by at most one row |
| UserAccounts.KakaoLinkAdoptsExistingAccount | demo_ssr_v1/src/main/java/org/example/demo_ssr_v1/user/UserService.java:145-165 | find-or-create matches on the derived username alone: any stored account with that name is returned unchanged and nothing is written, whatever its provider (a LOCAL account included) and password |
| UserAccounts.UserService.constructor | demo_ssr_v1/src/main/java/org/example/demo_ssr_v1/user/UserService.java:41-48 | the service starts over the given valid repository content and the given collaborators |
| UserAccounts.UserService.LookupUsername | demo_ssr_v1/src/main/java/org/example/demo_ssr_v1/user/UserService.java:338-340 | `사용자이름조회` returns the stored user with that username, or null when there is none |
| UserAccounts.UserService.SocialJoin | demo_ssr_v1/src/main/java/org/example/demo_ssr_v1/user/UserService.java:342-344 | `소셜회원가입` is one repository save |
| UserAccounts.UserService.FindOrCreateKakaoUser | demo_ssr_v1/src/main/java/org/example/demo_ssr_v1/user/UserService.java:140-166 | the method computes `KakaoLink` with the password `encode(tencoKey)`: if the username exists, the existing user is returned and nothing is saved; otherwise exactly one KAKAO user with that username, email and password is saved and returned |
| UserAccounts.UserService.Join | demo_ssr_v1/src/main/java/org/example/demo_ssr_v1/user/UserService.java:168-210 | a taken username fails with its 400; otherwise a taken email fails with its 400; a non-image or unsaved upload fails wrapped; every failure leaves the store unchanged; on success exactly one user is added under the next id, the id counter advances by one, and the user has the encoded password, the form's username and email and the stored file name |
| UserAccounts.UserService.Login | demo_ssr_v1/src/main/java/org/example/demo_ssr_v1/user/UserService.java:213-230 | an unknown username throws a NullPointerException; a password that does not match fails with 400; otherwise the stored user is returned; nothing changes |
| UserAccounts.UserService.LoginChecked | demo_ssr_v1/src/main/java/org/example/demo_ssr_v1/user/UserService.java:218-220 | login as intended: an unknown username fails with 400 "사용자가 존재하지 않습니다."; every failure is a 400 |
| UserAccounts.UserService.EditForm | demo_ssr_v1/src/main/java/org/example/demo_ssr_v1/user/UserService.java:233-243 | an unknown id fails with 404; a non-owner fails with 403; otherwise the stored user is returned |
| UserAccounts.UserService.MyPage | demo_ssr_v1/src/main/java/org/example/demo_ssr_v1/user/UserService.java:298-308 | an unknown id fails with 404; a non-owner fails with 403; otherwise the stored user is returned |
| UserAccounts.UserService.UpdateProfile | demo_ssr_v1/src/main/java/org/example/demo_ssr_v1/user/UserService.java:250-296 | an unknown id fails with 404; a non-owner fails with 403; a non-image upload fails with 400; a failed save or failed old-file delete fails with 500; the store is unchanged on every failure; otherwise `User.update` receives the encoded password and the old image name when nothing was uploaded (the new file name otherwise), and the result is written back |
| UserAccounts.UserService.DeleteProfileImage | demo_ssr_v1/src/main/java/org/example/demo_ssr_v1/user/UserService.java:310-336 | an unknown id fails with 404; a non-owner fails with 403; the store is unchanged on failure; otherwise only that user's profile image becomes null |
| UserAccounts.UserService.ChargePoint | demo_ssr_v1/src/main/java/org/example/demo_ssr_v1/user/UserService.java:346-355 | an unknown id fails with 404 and the store is unchanged; otherwise the user as changed by `User.chargePoint(amount)` is saved under the same id |

## Findings

| source | as written | input that shows it | evidently intended | confidence | as-written member | corrected member |
|---|---|---|---|---|---|---|
| demo_ssr_v1/src/main/java/org/example/demo_ssr_v1/user/UserService.java:215-220 | `findByUsernameWithRoles(...).orElseThrow(null)` throws a NullPointerException when the username is absent, so the null check and its 400 never run | a login with any username that is not in the store | fail with 400 "사용자가 존재하지 않습니다." | high; not executed | UserAccounts.UserService.Login | UserAccounts.UserService.LoginChecked |

## Left out

- Kakao HTTP calls (`카카오엑세스토큰발급`, `카카오프로필조회`) and their composition `카카오소셜로그인` are network I/O. The fetched profile is an input, and the profile's `properties` object is taken to be present.
- The password encoder is a library with salted, random output. It is the abstract `encode(raw, saltDraw)` and `matches`.
- Join: that the stored hash differs from the plain text is a property of the encoder and is not claimed; the contract states that the stored password is `encode(rawPassword, salt)`.
- `FileUtil` is file-system I/O. Only image names are kept: its outcomes are inputs, and writing or deleting files on disk is not modelled.
- `User.java`, `UserRequest.java`, `Payment.java`, `OAuthProvider`, the repositories and the DTO classes are not part of this model. `User.isOwner`, `User.update` and `User.chargePoint` are abstract, and nothing is claimed about point arithmetic. `JoinDTO.toEntity` is taken to copy the form's fields.
- UpdateProfile: the caller's DTO mutated in place (`setProfileImageFilename`, `setPassword`) is modelled as the value passed to `User.update`; the mutation the caller could observe afterwards is not.
- JPA entities are values in the store. Aliasing of a returned entity with the stored row, and the exact moment of dirty-checking, are not modelled. A change is written (with the unique-username check) when the method ends. A failed write rolls the whole call back.
- Uniqueness constraints of the user table: the table's definition is not part of this model, so both are assumptions. Username uniqueness is taken to be a constraint of the store (`UserStore.Valid`), resting on `findByUsername` returning an `Optional`, that is at most one row. Email uniqueness is checked by registration but is not a constraint of the modelled store.
- Collaborators' exceptions: `User.chargePoint`, `User.update`, `User.isOwner`, `PasswordEncoder.encode`/`matches` and `JoinDTO.toEntity` are taken to return normally, so an exception they might throw (for example a point check inside `chargePoint`) is not modelled.
- Builder defaults: a user built by `User.builder()` (the Kakao user and `toEntity`) is taken to start with point 0 and no id; `User.java` is not part of this model.
- Null arguments: ids (`Long userId`, `sessionUserId`), the `Integer` amount and the DTOs' strings are non-null in the model. In the code, `findById(null)` throws (Spring Data rejects a null id) at UserService.java lines 235, 252, 299, 316 and 349, and `encode(null)` throws `IllegalArgumentException` at lines 203 and 290; these exceptions are not modelled. Nullable values the code tests for (the Kakao nickname, id and image, the upload, the reply's comment and ids) are `Option`s.
- Refunds.RefundRequest: `status` is never null in the model. Lombok's `@Data` setter can store null, after which all three status queries are false; that state is not modelled.
- `@Transactional` boundaries, concurrency and timestamps (`@CreationTimestamp`) are not modelled. Every method runs atomically. Generated ids and times are left unset on built entities.
- `MyDateUtil.time` is a parameter of `NewListDTO`. `PrepareDTO`, `VerifyDTO` and the PortOne response DTOs are plain data with no logic.
- `Role.java` is an enum with no behaviour and no role in this core.
- Replies.Update: lengths count Unicode characters, while Java's `String.length` counts UTF-16 code units. The two differ for characters outside the Basic Multilingual Plane.
- Java's 32/64-bit integer widths are not modelled, since no operation of the core can overflow: the mail code is at most 999999, and ids are only compared and printed.
- Refund workflow services, payment status transitions, admin authorization and one-refund-per-payment enforcement are not in the files of this core.
