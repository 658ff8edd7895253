/** The user menu in the header: the name and initials shown, the company
    line, and the logout sequence. */
module UserMenu {
  import opened Wrappers
  import opened Strings
  import opened AuthConfig
  import opened Api
  import opened AuthContext

  /** The menu renders only for a signed-in user. */
  predicate Visible(user: Option<User>) {
    user.Some?
  }

  /** `userProfile?.name || user.email || 'Gebruiker'`. */
  function DisplayName(profile: Option<Profile>, user: User): (name: string)
    ensures name != ""
    ensures profile.Some? && Truthy(profile.value.name) ==> name == profile.value.name.value
    ensures !(profile.Some? && Truthy(profile.value.name)) && Truthy(user.email) ==> name == user.email.value
    ensures !(profile.Some? && Truthy(profile.value.name)) && !Truthy(user.email) ==> name == "Gebruiker"
  {
    var profileName := if profile.Some? then profile.value.name else None;
    OrElse(profileName, OrElse(user.email, "Gebruiker"))
  }

  /** The first character of every word (`n[0]`, nothing for an empty word), joined. */
  function FirstChars(words: seq<string>): (r: string)
    ensures |r| == |NonEmpty(words)|
    ensures forall i :: 0 <= i < |r| ==> r[i] == NonEmpty(words)[i][0]
    decreases |words|
  {
    if |words| == 0 then ""
    else if words[0] == "" then FirstChars(words[1..])
    else [words[0][0]] + FirstChars(words[1..])
  }

  /** The avatar initials: first characters of the space-separated words,
      upper-cased, at most two. */
  function Initials(name: string): (r: string)
    ensures |r| <= 2
    ensures |r| == if |NonEmpty(Split(name, ' '))| < 2 then |NonEmpty(Split(name, ' '))| else 2
    ensures forall i :: 0 <= i < |r| ==> r[i] == UpperChar(NonEmpty(Split(name, ' '))[i][0])
  {
    var all := Upper(FirstChars(Split(name, ' ')));
    if |all| <= 2 then all else all[..2]
  }

  /** A one-word name gives its own first letter. */
  lemma OneWordInitial(word: string)
    requires word != "" && ' ' !in word
    ensures Initials(word) == [UpperChar(word[0])]
  {
    SplitFree(word, ' ');
    assert NonEmpty([word]) == [word] by { NonEmptyKeeps([word]); }
  }

  /** A name with words `a` and `b` gives their two first letters. */
  lemma TwoWordInitials(a: string, b: string, rest: string)
    requires a != "" && b != "" && ' ' !in a && ' ' !in b
    ensures Initials(a + " " + b + rest) == [UpperChar(a[0]), UpperChar(b[0])]
  {
    var name := a + " " + b + rest;
    assert name == a + [' '] + (b + rest);
    SplitPiece(a, b + rest, ' ');
    var tail := Split(b + rest, ' ');
    assert tail[0][..|b|] == b by { SplitHead(b, rest, ' '); }
    assert NonEmpty([a] + tail) == [a] + NonEmpty(tail);
    assert NonEmpty(tail)[0] == tail[0];
  }

  /** The company line: the company name, else the company id, when either is non-empty. */
  function CompanyLine(profile: Option<Profile>): (line: Option<string>)
    ensures line.Some? <==> profile.Some? && (Truthy(profile.value.companyName) || profile.value.companyId != "")
    ensures line.Some? && Truthy(profile.value.companyName) ==> line.value == profile.value.companyName.value
    ensures line.Some? && !Truthy(profile.value.companyName) ==> line.value == profile.value.companyId
  {
    if profile.Some? && Truthy(profile.value.companyName) then profile.value.companyName
    else if profile.Some? && profile.value.companyId != "" then Some(profile.value.companyId)
    else None
  }

  /** `handleLogout`: signs out (which never rejects to its caller), then
      leaves for the SSO logout URL. */
  method Logout(auth: AuthProvider, appBase: string, remoteOk: bool) returns (target: string)
    modifies auth, auth.store
    ensures auth.View() == AfterSignOut(old(auth.View()), remoteOk)
    ensures target == GetLogoutUrl(appBase)
  {
    auth.SignOut(remoteOk);
    target := GetLogoutUrl(appBase);
  }
}
