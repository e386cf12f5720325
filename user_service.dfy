/**
 * The user account service: Kakao find-or-create, local registration, login, and the
 * owner-checked mutators (profile update, profile-image removal, point charge), over an
 * abstract user repository.
 *
 * Collaborators whose code is not part of this model are abstract: the password encoder
 * (`encode` takes the random salt as an explicit draw, so equal inputs need not give equal
 * hashes; `matches` is an arbitrary predicate), `User.isOwner`, `User.update` and
 * `User.chargePoint` are constant function fields of the service; the results of the file
 * helper (`isImageFile`, `saveFile`, `deleteFile`) are inputs.
 */
module UserAccounts {
  import opened Common
  import opened Decimal

  const UsernameTakenMessage: string := "이미 존재하는 사용자 이름입니다"
  const EmailTakenMessage: string := "이미 등록된 이메일 입니다"
  const JoinImageOnlyMessage: string := "이미지 파일만 업로드 가능합니다"
  const BadCredentialsMessage: string := "사용자명 또는 비밀번호가 올바르지 않습니다."
  const NoSuchUserMessage: string := "사용자가 존재하지 않습니다."
  const EditFormNotFoundMessage: string := "사용자를 찾을 수 없습니다"
  const MyPageNotFoundMessage: string := "해당 유저를 찾을 수 없습니다."
  const MyPageForbiddenMessage: string := "권한이 없습니다."
  const UpdateNotFoundMessage: string := "사용자를 찾을 수 없습니다."
  const UpdateForbiddenMessage: string := "회원 정보 수정 권한이 없습니다."
  const UpdateImageOnlyMessage: string := "이미지 파일만 업로드 가능합니다."
  const FileSaveFailedMessage: string := "파일 저장에 실패했습니다."
  const DeleteImageNotFoundMessage: string := "해당 유저는 존재하지 않습니다."
  const DeleteImageForbiddenMessage: string := "프로필 이미지 삭제 권한이 없습니다."
  const ChargeNotFoundMessage: string := "해당 유저를 찾을 수 없습니다."

  /** The domain appended to a Kakao user's username to form a placeholder e-mail address. */
  const KakaoEmailDomain: string := "@kakao.com"

  /** The account's origin; `LOCAL` stands for every value other than KAKAO. */
  datatype Provider = LOCAL | KAKAO

  /** The user entity's fields this core reads or writes. `point` changes only through `User.chargePoint`. */
  datatype User = User(
    id: Option<int>,
    username: string,
    password: string,
    email: string,
    profileImage: Option<string>,
    provider: Provider,
    point: int)

  /** The profile fetched from Kakao: its numeric id and the `properties` nickname and image URL. */
  datatype KakaoProfile = KakaoProfile(id: Option<int>, nickname: Option<string>, profileImage: Option<string>)

  /** An uploaded `MultipartFile`: whether it is empty and what `FileUtil.isImageFile` says of it. */
  datatype Upload = Upload(isEmpty: bool, isImage: bool)

  datatype JoinDTO = JoinDTO(username: string, password: string, email: string, profileImage: Option<Upload>)
  datatype LoginDTO = LoginDTO(username: string, password: string)
  datatype UpdateDTO = UpdateDTO(password: string, profileImage: Option<Upload>, profileImageFilename: Option<string>)

  /** An upload that the service goes on to store: non-null and non-empty. */
  predicate HasUpload(f: Option<Upload>) {
    f.Some? && !f.value.isEmpty
  }

  /** What Java's string concatenation appends for a `String` reference. */
  function JavaString(s: Option<string>): string {
    if s.None? then "null" else s.value
  }

  /** The local username of a Kakao account: `nickname + "_" + id`. */
  function SocialUsername(p: KakaoProfile): string {
    JavaString(p.nickname) + "_" + NullableLongToString(p.id)
  }

  /** The last position of `c` in `s`, or -1. */
  function LastIndexOf(s: string, c: char): (i: int)
    ensures -1 <= i < |s|
  {
    if s == [] then -1
    else if s[|s| - 1] == c then |s| - 1
    else LastIndexOf(s[..|s| - 1], c)
  }

  lemma {:induction false} LastIndexOfSplit(a: string, c: char, x: string)
    requires c !in x
    ensures LastIndexOf(a + [c] + x, c) == |a|
    decreases |x|
  {
    var s := a + [c] + x;
    if x != [] {
      assert s[..|s| - 1] == a + [c] + x[..|x| - 1];
      LastIndexOfSplit(a, c, x[..|x| - 1]);
    }
  }

  lemma NullableLongHasNoUnderscore(n: Option<int>)
    ensures '_' !in NullableLongToString(n)
  {
  }

  /**
   * The username identifies the Kakao account: two profiles get the same username exactly
   * when their ids are equal and their nicknames print alike, since the id part holds no '_'.
   */
  lemma SocialUsernameIdentifiesAccount(p: KakaoProfile, q: KakaoProfile)
    ensures SocialUsername(p) == SocialUsername(q) <==>
      p.id == q.id && JavaString(p.nickname) == JavaString(q.nickname)
  {
    if SocialUsername(p) == SocialUsername(q) {
      var a, x := JavaString(p.nickname), NullableLongToString(p.id);
      var b, y := JavaString(q.nickname), NullableLongToString(q.id);
      var s := SocialUsername(p);
      NullableLongHasNoUnderscore(p.id);
      NullableLongHasNoUnderscore(q.id);
      assert s == a + ['_'] + x && s == b + ['_'] + y;
      LastIndexOfSplit(a, '_', x);
      LastIndexOfSplit(b, '_', y);
      assert a == s[..|a|] == b;
      assert x == s[|a| + 1..] == y;
      NullableLongToStringInjective(p.id, q.id);
    }
  }

  /**
   * The user built for a first Kakao login (before the store assigns its id): the derived
   * username, the placeholder e-mail, provider KAKAO, the given password hash, and the
   * remote image URL only when it is non-null and non-empty.
   */
  function NewKakaoUser(p: KakaoProfile, hash: string): (u: User)
    ensures u.id.None? && u.username == SocialUsername(p)
    ensures u.email == SocialUsername(p) + KakaoEmailDomain
    ensures u.provider == KAKAO && u.password == hash
    ensures u.profileImage.Some? <==> p.profileImage.Some? && p.profileImage.value != []
    ensures u.profileImage.Some? ==> u.profileImage == p.profileImage
  {
    var username := SocialUsername(p);
    var u := User(None, username, hash, username + KakaoEmailDomain, None, KAKAO, 0);
    if p.profileImage.Some? && p.profileImage.value != [] then u.(profileImage := p.profileImage) else u
  }

  /**
   * `JoinDTO.toEntity(fileName)`. UserRequest.java is not part of this model: the entity is
   * taken to carry the form's username, password and e-mail, the stored file name, provider
   * LOCAL and no id.
   */
  function ToEntity(d: JoinDTO, fileName: Option<string>): (u: User)
    ensures u.id.None? && u.username == d.username && u.email == d.email
    ensures u.profileImage == fileName && u.provider == LOCAL
  {
    User(None, d.username, d.password, d.email, fileName, LOCAL, 0)
  }

  /**
   * The user repository: rows keyed by id, identities assigned from `nextId`, and the unique
   * username constraint enforced when a change is written.
   */
  datatype UserStore = UserStore(users: map<int, User>, nextId: int) {

    ghost predicate Valid() {
      && (forall k :: k in users ==> users[k].id == Some(k) && k < nextId)
      && (forall k1, k2 :: k1 in users && k2 in users && users[k1].username == users[k2].username ==> k1 == k2)
    }

    predicate HasUsername(name: string) {
      exists k :: k in users && users[k].username == name
    }

    predicate HasEmail(email: string) {
      exists k :: k in users && users[k].email == email
    }

    /** Some row other than `id` already uses `name`. */
    predicate UsernameTakenByOther(name: string, id: int) {
      exists k :: k in users && k != id && users[k].username == name
    }

    /** `findById(id)`. */
    function FindById(id: int): (r: Option<User>)
      ensures r.Some? <==> id in users
      ensures r.Some? ==> r.value == users[id]
    {
      if id in users then Some(users[id]) else None
    }

    /** `findByUsername(name)`: the one row with that username, if any. */
    function FindByUsername(name: string): (r: Option<User>)
      requires Valid()
      ensures r.Some? <==> HasUsername(name)
      ensures r.Some? ==> r.value.username == name && r.value.id.Some?
      ensures r.Some? ==> r.value.id.value in users && users[r.value.id.value] == r.value
    {
      if HasUsername(name) then
        var k :| k in users && users[k].username == name;
        Some(users[k])
      else None
    }

    /**
     * `save(u)`: a user without id is inserted under `nextId`; one with an id replaces its row.
     * The write fails, leaving the store as it was, when the username is used by another row
     * or the id has no row.
     */
    function Save(u: User): (res: (UserStore, Result<User>))
      requires Valid()
      ensures res.0.Valid()
      ensures res.1.Err? ==> res.0 == this
      ensures u.id.None? ==> (res.1.Ok? <==> !HasUsername(u.username))
      ensures u.id.None? && res.1.Ok? ==>
        res.1.value == u.(id := Some(nextId)) &&
        res.0 == UserStore(users[nextId := res.1.value], nextId + 1) &&
        |res.0.users| == |users| + 1
      ensures u.id.Some? ==> (res.1.Ok? <==> u.id.value in users && !UsernameTakenByOther(u.username, u.id.value))
      ensures u.id.Some? && res.1.Ok? ==>
        res.1.value == u && res.0 == UserStore(users[u.id.value := u], nextId) && |res.0.users| == |users|
      ensures u.id.Some? && u.id.value !in users ==> res.1 == Err(StaleEntity)
    {
      if u.id.None? then
        if HasUsername(u.username) then (this, Err(DataIntegrity))
        else
          var saved := u.(id := Some(nextId));
          (UserStore(users[nextId := saved], nextId + 1), Ok(saved))
      else if u.id.value !in users then (this, Err(StaleEntity))
      else if UsernameTakenByOther(u.username, u.id.value) then (this, Err(DataIntegrity))
      else (UserStore(users[u.id.value := u], nextId), Ok(u))
    }
  }

  /** After a successful insert, looking the username up finds exactly the saved user. */
  lemma SavedUserIsFound(s: UserStore, u: User)
    requires s.Valid() && u.id.None? && !s.HasUsername(u.username)
    ensures s.Save(u).1.Ok?
    ensures s.Save(u).0.FindByUsername(u.username) == Some(s.Save(u).1.value)
  {
  }

  /**
   * Kakao find-or-create on the store: the user with the derived username if there is one,
   * store unchanged; otherwise the new Kakao user, saved once.
   */
  function KakaoLink(s: UserStore, p: KakaoProfile, hash: string): (res: (UserStore, User))
    requires s.Valid()
    ensures res.0.Valid()
    ensures res.1.username == SocialUsername(p)
    ensures res.0.FindByUsername(SocialUsername(p)) == Some(res.1)
    ensures s.HasUsername(SocialUsername(p)) ==> res.0 == s
    ensures !s.HasUsername(SocialUsername(p)) ==>
      res.1 == NewKakaoUser(p, hash).(id := Some(s.nextId)) &&
      res.0 == UserStore(s.users[s.nextId := res.1], s.nextId + 1)
  {
    var found := s.FindByUsername(SocialUsername(p));
    if found.Some? then (s, found.value)
    else
      var newUser := NewKakaoUser(p, hash);
      SavedUserIsFound(s, newUser);
      var (t, r) := s.Save(newUser);
      (t, r.value)
  }

  /**
   * Find-or-create is idempotent: a second call with the same profile, whatever password hash
   * it would have drawn, returns the same user and writes nothing; the first grew the store by
   * at most one row.
   */
  lemma KakaoLinkIdempotent(s: UserStore, p: KakaoProfile, hash1: string, hash2: string)
    requires s.Valid()
    ensures KakaoLink(KakaoLink(s, p, hash1).0, p, hash2) == KakaoLink(s, p, hash1)
    ensures |KakaoLink(s, p, hash1).0.users| <= |s.users| + 1
  {
  }

  /**
   * Find-or-create links by username alone: any existing account holding the derived name,
   * a LOCAL one included, is returned as it is, whatever its provider or password.
   */
  lemma KakaoLinkAdoptsExistingAccount(s: UserStore, p: KakaoProfile, hash: string, k: int)
    requires s.Valid() && k in s.users && s.users[k].username == SocialUsername(p)
    ensures KakaoLink(s, p, hash) == (s, s.users[k])
  {
  }

  class UserService {
    /** The repository's content. */
    var store: UserStore
    /** `passwordEncoder.encode(raw)`, with the salt it draws made explicit. */
    const encode: (string, nat) -> string
    /** `passwordEncoder.matches(raw, hash)`. */
    const matches: (string, string) -> bool
    /** `User.isOwner(userId)`. */
    const isOwner: (User, int) -> bool
    /** `User.update(updateDTO)`. */
    const applyUpdate: (User, UpdateDTO) -> User
    /** `User.chargePoint(amount)`. */
    const chargePoint: (User, int) -> User
    /** The configured `tenco.key`, the raw placeholder password of Kakao users. */
    const tencoKey: string

    ghost predicate Valid()
      reads this
    {
      store.Valid()
    }

    /** The service over an injected repository that may already hold rows. */
    constructor (repository: UserStore, encode: (string, nat) -> string, matches: (string, string) -> bool,
                 isOwner: (User, int) -> bool, applyUpdate: (User, UpdateDTO) -> User,
                 chargePoint: (User, int) -> User, tencoKey: string)
      requires repository.Valid()
      ensures Valid() && store == repository
      ensures this.encode == encode && this.matches == matches && this.isOwner == isOwner
      ensures this.applyUpdate == applyUpdate && this.chargePoint == chargePoint
      ensures this.tencoKey == tencoKey
    {
      store := repository;
      this.encode := encode;
      this.matches := matches;
      this.isOwner := isOwner;
      this.applyUpdate := applyUpdate;
      this.chargePoint := chargePoint;
      this.tencoKey := tencoKey;
    }

    /** `사용자이름조회`: the user with that username, or null. */
    method LookupUsername(username: string) returns (r: Option<User>)
      requires Valid()
      ensures r.Some? <==> store.HasUsername(username)
      ensures r.Some? ==> r.value.username == username && r.value.id.Some?
      ensures r.Some? ==> r.value.id.value in store.users && store.users[r.value.id.value] == r.value
      ensures r == store.FindByUsername(username)
    {
      r := store.FindByUsername(username);
    }

    /** `소셜회원가입`: saves the user; the saved entity (with its new id) or the store's failure. */
    method SocialJoin(user: User) returns (r: Result<User>)
      requires Valid()
      modifies this`store
      ensures Valid()
      ensures (store, r) == old(store).Save(user)
    {
      var (s, res) := store.Save(user);
      store := s;
      r := res;
    }

    /**
     * `카카오사용자생성또는조회`: returns the account whose username is derived from the profile,
     * creating and saving it (with a password encoded from `tencoKey`) only when none exists.
     */
    method FindOrCreateKakaoUser(profile: KakaoProfile, saltDraw: nat) returns (u: User)
      requires Valid()
      modifies this`store
      ensures Valid()
      ensures (store, u) == KakaoLink(old(store), profile, encode(tencoKey, saltDraw))
      ensures old(store).HasUsername(SocialUsername(profile)) ==>
        store == old(store) && Some(u) == old(store).FindByUsername(SocialUsername(profile))
      ensures !old(store).HasUsername(SocialUsername(profile)) ==>
        u.username == SocialUsername(profile) && u.provider == KAKAO &&
        u.email == SocialUsername(profile) + KakaoEmailDomain &&
        u.password == encode(tencoKey, saltDraw) &&
        store.users == old(store).users[old(store).nextId := u] && |store.users| == |old(store).users| + 1
    {
      var username := SocialUsername(profile);
      var userOrigin := LookupUsername(username);
      if userOrigin.None? {
        var newUser := User(None, username, encode(tencoKey, saltDraw), username + KakaoEmailDomain, None, KAKAO, 0);
        var profileImage := profile.profileImage;
        if profileImage.Some? && profileImage.value != [] {
          newUser := newUser.(profileImage := profileImage);
        }
        assert newUser == NewKakaoUser(profile, encode(tencoKey, saltDraw));
        SavedUserIsFound(store, newUser);
        var saved := SocialJoin(newUser);
        userOrigin := Some(saved.value);
      }
      u := userOrigin.value;
    }

    /**
     * `회원가입`: a taken username fails, then a taken e-mail, then a rejected or unsaved image
     * (both rewrapped as runtime exceptions), each before any write; otherwise exactly one
     * user is added, holding the encoded password.
     */
    method Join(dto: JoinDTO, stored: Option<string>, saltDraw: nat) returns (r: Result<User>)
      requires Valid()
      modifies this`store
      ensures Valid()
      ensures r.Err? ==> store == old(store)
      ensures old(store).HasUsername(dto.username) ==> r == Err(BadRequest(UsernameTakenMessage))
      ensures !old(store).HasUsername(dto.username) && old(store).HasEmail(dto.email) ==>
        r == Err(BadRequest(EmailTakenMessage))
      ensures !old(store).HasUsername(dto.username) && !old(store).HasEmail(dto.email) ==>
        if HasUpload(dto.profileImage) && !dto.profileImage.value.isImage then
          r == Err(Wrapped(BadRequest(JoinImageOnlyMessage)))
        else if HasUpload(dto.profileImage) && stored.None? then
          r == Err(Wrapped(IoError))
        else
          r.Ok? &&
          r.value.id == Some(old(store).nextId) &&
          r.value.username == dto.username && r.value.email == dto.email &&
          r.value.password == encode(dto.password, saltDraw) &&
          r.value.profileImage == (if HasUpload(dto.profileImage) then stored else None) &&
          store == UserStore(old(store).users[old(store).nextId := r.value], old(store).nextId + 1) &&
          |store.users| == |old(store).users| + 1
    {
      if store.HasUsername(dto.username) {
        return Err(BadRequest(UsernameTakenMessage));
      }
      if store.HasEmail(dto.email) {
        return Err(BadRequest(EmailTakenMessage));
      }
      var profileImageFileName: Option<string> := None;
      if dto.profileImage.Some? && !dto.profileImage.value.isEmpty {
        if !dto.profileImage.value.isImage {
          return Err(Wrapped(BadRequest(JoinImageOnlyMessage)));
        }
        if stored.None? {
          return Err(Wrapped(IoError));
        }
        profileImageFileName := stored;
      }
      var hashPwd := encode(dto.password, saltDraw);
      var user := ToEntity(dto, profileImageFileName);
      user := user.(password := hashPwd);
      var (s, res) := store.Save(user);
      store := s;
      r := res;
    }

    /**
     * `로그인` as written: `orElseThrow(null)` throws a NullPointerException for an unknown
     * username, so the null check after it never runs; a password that does not match fails
     * with 400; otherwise the stored user is returned and nothing changes.
     */
    method Login(dto: LoginDTO) returns (r: Result<User>)
      requires Valid()
      ensures !store.HasUsername(dto.username) ==> r == Err(NullPointer)
      ensures store.HasUsername(dto.username) ==>
        var u := store.FindByUsername(dto.username).value;
        r == if matches(dto.password, u.password) then Ok(u) else Err(BadRequest(BadCredentialsMessage))
      ensures r.Ok? ==> r.value.username == dto.username && matches(dto.password, r.value.password)
    {
      var found := store.FindByUsername(dto.username);
      if found.None? {
        return Err(NullPointer);
      }
      var userEntity := found.value;
      if !matches(dto.password, userEntity.password) {
        return Err(BadRequest(BadCredentialsMessage));
      }
      r := Ok(userEntity);
    }

    /** `로그인` as evidently intended: an unknown username fails with the 400 the null check names. */
    method LoginChecked(dto: LoginDTO) returns (r: Result<User>)
      requires Valid()
      ensures !store.HasUsername(dto.username) ==> r == Err(BadRequest(NoSuchUserMessage))
      ensures store.HasUsername(dto.username) ==>
        var u := store.FindByUsername(dto.username).value;
        r == if matches(dto.password, u.password) then Ok(u) else Err(BadRequest(BadCredentialsMessage))
      ensures r.Err? ==> r.error.BadRequest?
      ensures r.Ok? ==> r.value.username == dto.username && matches(dto.password, r.value.password)
    {
      var found := store.FindByUsername(dto.username);
      if found.None? {
        return Err(BadRequest(NoSuchUserMessage));
      }
      var userEntity := found.value;
      if !matches(dto.password, userEntity.password) {
        return Err(BadRequest(BadCredentialsMessage));
      }
      r := Ok(userEntity);
    }

    /** `회원정보수정화면`: the user to edit; unknown id fails with 404, a non-owner with 403. */
    method EditForm(userId: int) returns (r: Result<User>)
      requires Valid()
      ensures userId !in store.users ==> r == Err(NotFound(EditFormNotFoundMessage))
      ensures userId in store.users ==>
        r == if isOwner(store.users[userId], userId) then Ok(store.users[userId])
             else Err(Forbidden(UpdateForbiddenMessage))
    {
      var found := store.FindById(userId);
      if found.None? {
        return Err(NotFound(EditFormNotFoundMessage));
      }
      var userEntity := found.value;
      if !isOwner(userEntity, userId) {
        return Err(Forbidden(UpdateForbiddenMessage));
      }
      r := Ok(userEntity);
    }

    /** `마이페이지`: the session user; unknown id fails with 404, a non-owner with 403. */
    method MyPage(sessionUserId: int) returns (r: Result<User>)
      requires Valid()
      ensures sessionUserId !in store.users ==> r == Err(NotFound(MyPageNotFoundMessage))
      ensures sessionUserId in store.users ==>
        r == if isOwner(store.users[sessionUserId], sessionUserId) then Ok(store.users[sessionUserId])
             else Err(Forbidden(MyPageForbiddenMessage))
    {
      var found := store.FindById(sessionUserId);
      if found.None? {
        return Err(NotFound(MyPageNotFoundMessage));
      }
      var user := found.value;
      if !isOwner(user, sessionUserId) {
        return Err(Forbidden(MyPageForbiddenMessage));
      }
      r := Ok(user);
    }

    /**
     * `회원정보수정`: unknown id fails with 404, a non-owner with 403, a rejected or unsaved new
     * image (or a failed removal of the old one) with 400/500, all before any write. Otherwise
     * `User.update` gets the form with the encoded password and, when no image was uploaded,
     * the old image name; the changed entity is written back when the transaction commits.
     */
    method UpdateProfile(dto: UpdateDTO, userId: int, stored: Option<string>, deleteOk: bool, saltDraw: nat)
      returns (r: Result<User>)
      requires Valid()
      modifies this`store
      ensures Valid()
      ensures r.Err? ==> store == old(store)
      ensures userId !in old(store).users ==> r == Err(NotFound(UpdateNotFoundMessage))
      ensures userId in old(store).users && !isOwner(old(store).users[userId], userId) ==>
        r == Err(Forbidden(UpdateForbiddenMessage))
      ensures userId in old(store).users && isOwner(old(store).users[userId], userId) ==>
        var u := old(store).users[userId];
        var hash := encode(dto.password, saltDraw);
        if !HasUpload(dto.profileImage) then
          (store, r) == old(store).Save(applyUpdate(u, dto.(profileImageFilename := u.profileImage, password := hash)).(id := Some(userId)))
        else if !dto.profileImage.value.isImage then
          r == Err(BadRequest(UpdateImageOnlyMessage))
        else if stored.None? || (u.profileImage.Some? && u.profileImage.value != [] && !deleteOk) then
          r == Err(ServerError(FileSaveFailedMessage))
        else
          (store, r) == old(store).Save(applyUpdate(u, dto.(profileImageFilename := stored, password := hash)).(id := Some(userId)))
    {
      var found := store.FindById(userId);
      if found.None? {
        return Err(NotFound(UpdateNotFoundMessage));
      }
      var userEntity := found.value;
      if !isOwner(userEntity, userId) {
        return Err(Forbidden(UpdateForbiddenMessage));
      }
      var form := dto;
      var oldProfileImage := userEntity.profileImage;
      if dto.profileImage.Some? && !dto.profileImage.value.isEmpty {
        if !dto.profileImage.value.isImage {
          return Err(BadRequest(UpdateImageOnlyMessage));
        }
        if stored.None? {
          return Err(ServerError(FileSaveFailedMessage));
        }
        form := form.(profileImageFilename := stored);
        if oldProfileImage.Some? && oldProfileImage.value != [] && !deleteOk {
          return Err(ServerError(FileSaveFailedMessage));
        }
      } else {
        form := form.(profileImageFilename := oldProfileImage);
      }
      var hashPsw := encode(dto.password, saltDraw);
      form := form.(password := hashPsw);
      var changed := applyUpdate(userEntity, form).(id := userEntity.id);
      var (s, res) := store.Save(changed);
      store := s;
      r := res;
    }

    /**
     * `프로필이미지삭제`: unknown id fails with 404 and a non-owner with 403, store unchanged;
     * otherwise the image reference is cleared and no other field or row changes. A failed
     * file deletion is swallowed.
     */
    method DeleteProfileImage(sessionUserId: int) returns (r: Result<User>)
      requires Valid()
      modifies this`store
      ensures Valid()
      ensures r.Err? ==> store == old(store)
      ensures sessionUserId !in old(store).users ==> r == Err(NotFound(DeleteImageNotFoundMessage))
      ensures sessionUserId in old(store).users && !isOwner(old(store).users[sessionUserId], sessionUserId) ==>
        r == Err(Forbidden(DeleteImageForbiddenMessage))
      ensures sessionUserId in old(store).users && isOwner(old(store).users[sessionUserId], sessionUserId) ==>
        r == Ok(old(store).users[sessionUserId].(profileImage := None)) &&
        store == UserStore(old(store).users[sessionUserId := r.value], old(store).nextId)
    {
      var found := store.FindById(sessionUserId);
      if found.None? {
        return Err(NotFound(DeleteImageNotFoundMessage));
      }
      var userEntity := found.value;
      if !isOwner(userEntity, sessionUserId) {
        return Err(Forbidden(DeleteImageForbiddenMessage));
      }
      var cleared := userEntity.(profileImage := None);
      assert !store.UsernameTakenByOther(cleared.username, sessionUserId);
      var (s, res) := store.Save(cleared);
      store := s;
      r := res;
    }

    /**
     * `포인트충전`: unknown id fails with 404, store unchanged; otherwise the user as changed by
     * `User.chargePoint(amount)` is saved. The sign of `amount` is not checked here.
     */
    method ChargePoint(userId: int, amount: int) returns (r: Result<User>)
      requires Valid()
      modifies this`store
      ensures Valid()
      ensures r.Err? ==> store == old(store)
      ensures userId !in old(store).users ==> r == Err(NotFound(ChargeNotFoundMessage))
      ensures userId in old(store).users ==>
        (store, r) == old(store).Save(chargePoint(old(store).users[userId], amount).(id := Some(userId)))
    {
      var found := store.FindById(userId);
      if found.None? {
        return Err(NotFound(ChargeNotFoundMessage));
      }
      var user := found.value;
      var charged := chargePoint(user, amount).(id := user.id);
      var (s, res) := store.Save(charged);
      store := s;
      r := res;
    }
  }
}
