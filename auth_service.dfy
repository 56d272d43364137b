/**
 * Sign-up and sign-in input handling: the e-mail shape test, the
 * identifier normalisation shared by both, the ordered input checks, the
 * mapping of the identity provider's answers to user-facing results, and
 * the character created on a first sign-in.
 */
module AuthService {
  import opened Wrappers
  import opened Js
  import opened Records
  import opened CharacterService

  const LocalDomain := "@life-as-a-game.local"
  const DefaultNickname := "플레이어"

  const MsgFillAll := "모든 항목을 입력해주세요."
  const MsgIdTooShort := "아이디는 4자 이상이어야 합니다."
  const MsgPasswordTooShort := "비밀번호는 6자 이상이어야 합니다."
  const MsgIdTaken := "이미 사용중인 아이디입니다."
  const MsgUserNotCreated := "사용자 생성 실패"
  const MsgEnterBoth := "아이디와 비밀번호를 입력해주세요."
  const MsgConfirmEmail := "이메일 확인이 필요합니다. 받은편지함을 확인해주세요."
  const MsgWrongCredentials := "아이디 또는 비밀번호가 일치하지 않습니다."
  const MsgSignInFailed := "로그인에 실패했습니다."
  const MsgCharacterNotCreated := "캐릭터 생성에 실패했습니다. 관리자에게 문의하세요."

  /** A character of the class `[^\s@]`. */
  predicate Plain(c: char)
  {
    !IsWhitespace(c) && c != '@'
  }

  predicate AllPlain(s: string)
  {
    forall i :: 0 <= i < |s| ==> Plain(s[i])
  }

  /** The strings matched by /^[^\s@]+@[^\s@]+\.[^\s@]+$/, split at the '@' and at a '.'. */
  ghost predicate MatchesEmailPattern(s: string)
  {
    exists i, j :: EmailSplit(s, i, j)
  }

  /** `s` is a plain run, '@' at i, a plain run, '.' at j, a plain run, every run non-empty. */
  ghost predicate EmailSplit(s: string, i: int, j: int)
  {
    0 < i && i + 1 < j && j + 1 < |s| && s[i] == '@' && s[j] == '.'
    && AllPlain(s[..i]) && AllPlain(s[i + 1..j]) && AllPlain(s[j + 1..])
  }

  /** A '.' that is neither the first nor the last character. */
  predicate HasInnerDot(d: string)
  {
    exists j | 0 < j < |d| - 1 :: d[j] == '.'
  }

  /** The e-mail shape test: a plain local part, '@', and a plain domain with an inner dot. */
  predicate IsEmailFormat(s: string)
    ensures IsEmailFormat(s) ==> |s| >= 5
  {
    exists i | 0 < i < |s| :: s[i] == '@' && AllPlain(s[..i]) && AllPlain(s[i + 1..]) && HasInnerDot(s[i + 1..])
  }

  lemma FormatImpliesPattern(s: string)
    requires IsEmailFormat(s)
    ensures MatchesEmailPattern(s)
  {
    var i :| 0 < i < |s| && s[i] == '@' && AllPlain(s[..i]) && AllPlain(s[i + 1..]) && HasInnerDot(s[i + 1..]);
    var d := s[i + 1..];
    var k :| 0 < k < |d| - 1 && d[k] == '.';
    var j := i + 1 + k;
    assert s[i + 1..j] == d[..k];
    assert s[j + 1..] == d[k + 1..];
    PlainSlices(d, k);
    assert s[j] == '.';
    assert EmailSplit(s, i, j);
  }

  lemma PlainSlices(d: string, k: nat)
    requires AllPlain(d) && k < |d|
    ensures AllPlain(d[..k]) && AllPlain(d[k + 1..])
  {
    var tail := d[k + 1..];
    forall m | 0 <= m < |tail| ensures Plain(tail[m]) {
      assert tail[m] == d[k + 1 + m];
    }
  }

  lemma PlainJoin(a: string, c: char, b: string)
    requires AllPlain(a) && Plain(c) && AllPlain(b)
    ensures AllPlain(a + [c] + b)
  {
    var d := a + [c] + b;
    forall m | 0 <= m < |d| ensures Plain(d[m]) {
      if m < |a| {
        assert d[m] == a[m];
      } else if m > |a| {
        assert d[m] == b[m - |a| - 1];
      }
    }
  }

  lemma PatternImpliesFormat(s: string)
    requires MatchesEmailPattern(s)
    ensures IsEmailFormat(s)
  {
    var i, j :| EmailSplit(s, i, j);
    var d, k := s[i + 1..], j - i - 1;
    assert d[..k] == s[i + 1..j];
    assert d[k + 1..] == s[j + 1..];
    assert d[k] == s[j];
    DomainSplit(d, k);
    assert 0 < i < |s| && s[i] == '@' && AllPlain(s[..i]) && AllPlain(d) && HasInnerDot(d);
  }

  /** A domain that is plain around an inner '.' is plain and has an inner dot. */
  lemma DomainSplit(d: string, k: nat)
    requires 0 < k < |d| - 1 && d[k] == '.' && AllPlain(d[..k]) && AllPlain(d[k + 1..])
    ensures AllPlain(d) && HasInnerDot(d)
  {
    assert d == d[..k] + [d[k]] + d[k + 1..];
    PlainJoin(d[..k], d[k], d[k + 1..]);
  }

  /** The test accepts exactly the language of the regular expression. */
  lemma EmailFormatMatchesPattern(s: string)
    ensures IsEmailFormat(s) <==> MatchesEmailPattern(s)
  {
    if IsEmailFormat(s) {
      FormatImpliesPattern(s);
    }
    if MatchesEmailPattern(s) {
      PatternImpliesFormat(s);
    }
  }

  /** The same test in words: no whitespace, exactly one '@' with something before it, and an inner dot after it. */
  ghost predicate EmailInWords(s: string)
  {
    && (forall k :: 0 <= k < |s| ==> !IsWhitespace(s[k]))
    && exists i :: 0 < i < |s| && s[i] == '@' && HasInnerDot(s[i + 1..])
         && (forall k :: 0 <= k < |s| && k != i ==> s[k] != '@')
  }

  lemma EmailFormatInWords(s: string)
    ensures IsEmailFormat(s) <==> EmailInWords(s)
  {
    if IsEmailFormat(s) {
      var i :| 0 < i < |s| && s[i] == '@' && AllPlain(s[..i]) && AllPlain(s[i + 1..]) && HasInnerDot(s[i + 1..]);
      forall k | 0 <= k < |s| && k != i
        ensures !IsWhitespace(s[k]) && s[k] != '@'
      {
        if k < i {
          assert s[..i][k] == s[k];
        } else {
          assert s[i + 1..][k - i - 1] == s[k];
        }
      }
    }
    if EmailInWords(s) {
      var i :| 0 < i < |s| && s[i] == '@' && HasInnerDot(s[i + 1..])
         && (forall k :: 0 <= k < |s| && k != i ==> s[k] != '@');
      assert AllPlain(s[..i]);
      assert AllPlain(s[i + 1..]);
    }
  }

  /** An identifier that is not e-mail shaped gets the local domain appended. */
  function Normalise(identifier: string): (r: string)
    ensures |r| >= |identifier| && r[..|identifier|] == identifier
    ensures IsEmailFormat(identifier) ==> r == identifier
    ensures !IsEmailFormat(identifier) ==> r == identifier + LocalDomain
  {
    if IsEmailFormat(identifier) then identifier else identifier + LocalDomain
  }

  /** A non-empty identifier without whitespace and '@' always becomes e-mail shaped. */
  lemma NormalisedPlainIsEmail(identifier: string)
    requires identifier != [] && AllPlain(identifier)
    ensures IsEmailFormat(Normalise(identifier))
  {
    if !IsEmailFormat(identifier) {
      var s := identifier + LocalDomain;
      var i := |identifier|;
      assert s[..i] == identifier;
      assert s[i] == '@';
      assert s[i + 1..] == LocalDomain[1..];
      LocalDomainShaped();
    }
  }

  /** The local domain after its '@' is plain and has an inner dot. */
  lemma LocalDomainShaped()
    ensures AllPlain(LocalDomain[1..]) && HasInnerDot(LocalDomain[1..])
  {
    var d := LocalDomain[1..];
    assert d[14] == '.';
    forall k | 0 <= k < |d| ensures Plain(d[k]) {
      assert 'a' <= d[k] <= 'z' || d[k] == '-' || d[k] == '.';
    }
  }

  /** An identifier with whitespace is never turned into an e-mail shaped one. */
  lemma WhitespaceNeverEmail(identifier: string, k: nat)
    requires k < |identifier| && IsWhitespace(identifier[k])
    ensures !IsEmailFormat(Normalise(identifier))
  {
    var s := Normalise(identifier);
    assert s[k] == identifier[k];
    EmailFormatInWords(s);
  }

  datatype AuthRequest = AuthRequest(email: string, password: string, nickname: Option<string>)

  datatype AuthOutcome = AuthOk(userId: string) | AuthFailed(error: string)

  /**
   * The sign-up checks, in order and before any provider call: an empty
   * field, an identifier shorter than 4, a password shorter than 6. A
   * request that passes goes out with the normalised identifier.
   */
  function PrepareSignUp(email: string, password: string, nickname: string): (r: Result<AuthRequest, string>)
    ensures r.Success? <==> email != "" && password != "" && nickname != "" && |email| >= 4 && |password| >= 6
    ensures (email == "" || password == "" || nickname == "") ==> r == Failure(MsgFillAll)
    ensures email != "" && password != "" && nickname != "" && |email| < 4 ==> r == Failure(MsgIdTooShort)
    ensures email != "" && password != "" && nickname != "" && |email| >= 4 && |password| < 6 ==>
      r == Failure(MsgPasswordTooShort)
    ensures r.Success? ==> r.value == AuthRequest(Normalise(email), password, Some(nickname))
  {
    if email == "" || password == "" || nickname == "" then Failure(MsgFillAll)
    else if |email| < 4 then Failure(MsgIdTooShort)
    else if |password| < 6 then Failure(MsgPasswordTooShort)
    else Success(AuthRequest(Normalise(email), password, Some(nickname)))
  }

  /** `s.includes(t)`. */
  predicate Contains(s: string, t: string)
    ensures Contains(s, t) ==> |t| <= |s|
    ensures t == [] ==> Contains(s, t)
  {
    assert t == [] ==> OccursAt(s, t, 0);
    exists i | 0 <= i <= |s| - |t| :: OccursAt(s, t, i)
  }

  /** Every infix occurrence is found. */
  lemma ContainsInfix(a: string, t: string, b: string)
    ensures Contains(a + t + b, t)
  {
    var s := a + t + b;
    assert s[|a|..|a| + |t|] == t;
    assert OccursAt(s, t, |a|);
  }

  predicate OccursAt(s: string, t: string, i: int)
    requires 0 <= i <= |s| - |t|
  {
    s[i..i + |t|] == t
  }

  /** The identity provider's answer to a sign-up request. */
  datatype SignUpAnswer = SignUpError(message: string) | SignUpNoUser | SignUpCreated(userId: string)

  /** What the user is told after the provider answered a sign-up. */
  function SignUpResult(answer: SignUpAnswer): (r: AuthOutcome)
    ensures r.AuthOk? <==> answer.SignUpCreated?
    ensures r.AuthOk? ==> r.userId == answer.userId
  {
    match answer
    case SignUpError(m) =>
      if Contains(m, "already registered") then AuthFailed(MsgIdTaken)
      else if Contains(m, "email") then AuthFailed("이메일 오류: " + m)
      else AuthFailed(m)
    case SignUpNoUser => AuthFailed(MsgUserNotCreated)
    case SignUpCreated(u) => AuthOk(u)
  }

  function SignUp(email: string, password: string, nickname: string, answer: SignUpAnswer): (r: AuthOutcome)
    ensures PrepareSignUp(email, password, nickname).Failure? ==>
      r == AuthFailed(PrepareSignUp(email, password, nickname).error)
    ensures r.AuthOk? <==> PrepareSignUp(email, password, nickname).Success? && answer.SignUpCreated?
    ensures r.AuthOk? ==> r.userId == answer.userId
  {
    match PrepareSignUp(email, password, nickname)
    case Failure(e) => AuthFailed(e)
    case Success(_) => SignUpResult(answer)
  }

  /** A sign-up refused by the input checks does not depend on the provider. */
  lemma SignUpChecksComeFirst(email: string, password: string, nickname: string, a1: SignUpAnswer, a2: SignUpAnswer)
    requires PrepareSignUp(email, password, nickname).Failure?
    ensures SignUp(email, password, nickname, a1) == SignUp(email, password, nickname, a2)
  {
  }

  /** The sign-in check: both fields must be non-empty. */
  function PrepareSignIn(email: string, password: string): (r: Result<AuthRequest, string>)
    ensures r.Success? <==> email != "" && password != ""
    ensures r.Failure? ==> r.error == MsgEnterBoth
    ensures r.Success? ==> r.value == AuthRequest(Normalise(email), password, None)
  {
    if email == "" || password == "" then Failure(MsgEnterBoth)
    else Success(AuthRequest(Normalise(email), password, None))
  }

  /** Sign-up and sign-in send the same identifier to the provider. */
  lemma SameIdentifierRule(email: string, password: string, nickname: string)
    requires PrepareSignUp(email, password, nickname).Success?
    ensures PrepareSignIn(email, password).Success?
    ensures PrepareSignIn(email, password).value.email == PrepareSignUp(email, password, nickname).value.email
  {
  }

  /** The identity provider's answer to a sign-in request. */
  datatype SignInAnswer =
    | SignInError(message: string)
    | SignInNoUser
    | SignInUser(userId: string, metadataNickname: Option<string>)

  function SignInErrorMessage(providerMessage: string): (r: string)
    ensures r == MsgConfirmEmail || r == MsgWrongCredentials
    ensures r == MsgConfirmEmail <==> Contains(providerMessage, "Email not confirmed")
  {
    if Contains(providerMessage, "Email not confirmed") then MsgConfirmEmail else MsgWrongCredentials
  }

  /** The metadata nickname when it is a non-empty string, the default otherwise. */
  function AutoNickname(metadataNickname: Option<string>): (r: string)
    ensures r != ""
    ensures metadataNickname.Some? && metadataNickname.value != "" ==> r == metadataNickname.value
    ensures (metadataNickname.None? || metadataNickname.value == "") ==> r == DefaultNickname
  {
    if metadataNickname.Some? && metadataNickname.value != "" then metadataNickname.value else DefaultNickname
  }

  /** The character inserted on a first sign-in. */
  function AutoCharacter(id: string, userId: string, metadataNickname: Option<string>): (c: Character)
    ensures c.id == id && c.userId == Some(userId) && c.name == None
    ensures c.nickname == Some(AutoNickname(metadataNickname))
    ensures c.level == 1 && c.xp == 0 && c.stats == ZeroStats
  {
    Character(id, Some(userId), None, Some(AutoNickname(metadataNickname)), 1, 0, ZeroStats)
  }

  /** The ids of the rows owned by `uid`. */
  function OwnedIds(characters: map<string, Character>, uid: string): set<string>
  {
    set id | id in characters && characters[id].userId == Some(uid)
  }

  /**
   * Sign-in. `answer` is the provider's answer and `lookupOk` whether the
   * single-row character query runs without a database error. When that
   * query fails (a database error, or not exactly one row), a character is
   * inserted with the server-assigned `newId`, and `insertOk` says whether
   * that insert reaches the store.
   */
  method SignIn(store: CharacterStore, email: string, password: string, answer: SignInAnswer,
                lookupOk: bool, newId: string, insertOk: bool)
    returns (r: AuthOutcome)
    requires store.Valid()
    modifies store`characters
    ensures store.Valid()
    ensures old(store.LevelsFlat()) ==> store.LevelsFlat()
    ensures PrepareSignIn(email, password).Failure? ==>
      r == AuthFailed(MsgEnterBoth) && store.characters == old(store.characters)
    ensures PrepareSignIn(email, password).Success? && answer.SignInError? ==>
      r == AuthFailed(SignInErrorMessage(answer.message)) && store.characters == old(store.characters)
    ensures PrepareSignIn(email, password).Success? && answer.SignInNoUser? ==>
      r == AuthFailed(MsgSignInFailed) && store.characters == old(store.characters)
    ensures PrepareSignIn(email, password).Success? && answer.SignInUser? ==>
      if lookupOk && |OwnedIds(old(store.characters), answer.userId)| == 1 then
        r == AuthOk(answer.userId) && store.characters == old(store.characters)
      else if insertOk && newId !in old(store.characters) then
        r == AuthOk(answer.userId)
        && store.characters
           == old(store.characters)[newId := AutoCharacter(newId, answer.userId, answer.metadataNickname)]
      else
        r == AuthFailed(MsgCharacterNotCreated) && store.characters == old(store.characters)
  {
    var request := PrepareSignIn(email, password);
    if request.Failure? {
      return AuthFailed(request.error);
    }
    match answer
    case SignInError(m) =>
      r := AuthFailed(SignInErrorMessage(m));
    case SignInNoUser =>
      r := AuthFailed(MsgSignInFailed);
    case SignInUser(uid, meta) =>
      if lookupOk && |OwnedIds(store.characters, uid)| == 1 {
        r := AuthOk(uid);
      } else {
        var created := store.Insert(AutoCharacter(newId, uid, meta), insertOk);
        if created.None? {
          r := AuthFailed(MsgCharacterNotCreated);
        } else {
          r := AuthOk(uid);
        }
      }
  }

  /**
   * A failed lookup for a user who already has a character inserts a second
   * one; from then on the single-row lookup can never succeed for that user.
   */
  lemma SecondCharacterAfterFailedLookup(characters: map<string, Character>, uid: string, newId: string,
                                         meta: Option<string>)
    requires |OwnedIds(characters, uid)| == 1 && newId !in characters
    ensures |OwnedIds(characters[newId := AutoCharacter(newId, uid, meta)], uid)| == 2
  {
    var after := characters[newId := AutoCharacter(newId, uid, meta)];
    assert OwnedIds(after, uid) == OwnedIds(characters, uid) + {newId};
  }
}
