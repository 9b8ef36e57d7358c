/** The user and CODEF registration records (`User.kt`). */
module UserDomain {
  import opened Wrappers
  import opened Codef

  datatype AuthProvider = GOOGLE | KAKAO | NAVER

  /** A registered user. `codefConnectedId` is set once the user has linked an account through CODEF. */
  datatype User = User(
    id: string,
    email: string,
    name: string,
    provider: AuthProvider,
    providerId: string,
    profileImageUrl: Option<string> := None,
    codefConnectedId: Option<string> := None,
    createdAt: Instant,
    updatedAt: Instant)

  /** What the caller supplies to link an account. `loginType` "1" means certificate login, "0" id and password. */
  datatype CodefRegistrationRequest = CodefRegistrationRequest(
    organization: string,
    loginType: string := "1",
    userName: string,
    identity: string,
    phoneNo: string,
    certFile: Option<string> := None,
    certPassword: Option<string> := None)

  /** CODEF's answer to a registration: the connected id and the organization it belongs to. */
  datatype CodefConnectedIdResponse = CodefConnectedIdResponse(
    connectedId: string,
    organization: string,
    createdAt: Instant)

  /** Every provider is one of the three. */
  lemma ThreeProviders(p: AuthProvider)
    ensures p == GOOGLE || p == KAKAO || p == NAVER
  {
  }

  /** A user built without them has no picture and no connected id. */
  lemma UserDefaults(id: string, email: string, name: string, provider: AuthProvider, providerId: string, at: Instant)
    ensures var u := User(id := id, email := email, name := name, provider := provider, providerId := providerId,
                          createdAt := at, updatedAt := at);
            u.profileImageUrl == None && u.codefConnectedId == None
  {
  }

  /** A request built without them asks for certificate login and carries no certificate. */
  lemma RegistrationDefaults(organization: string, userName: string, identity: string, phoneNo: string)
    ensures var r := CodefRegistrationRequest(organization := organization, userName := userName,
                                              identity := identity, phoneNo := phoneNo);
            r.loginType == "1" && r.certFile == None && r.certPassword == None
  {
  }
}
