/**
 * The records the client receives from the REST backend, reduced to the
 * fields the views read. A field the response may omit is an `Option`.
 */
module Social {
  import opened Wrappers
  import opened Text

  /** A user document as the client sees it (`authUser`, a friend, a recommended user, a request party). */
  datatype User = User(
    id: string,
    fullName: Option<string>,
    bio: Option<string>,
    nativeLanguage: Option<string>,
    learningLanguage: Option<string>,
    location: Option<string>,
    profilePic: Option<string>,
    isOnboarded: bool)

  /** A friend request with both parties populated. */
  datatype FriendRequest = FriendRequest(id: string, sender: User, recipient: User)

  /** One "Native: …" / "Learning: …" line of a card: the flag shown before the text, and the text. */
  datatype LanguageRow = LanguageRow(flag: Option<string>, text: string)

  /** What a user card displays: whose card it is, name, picture and the two language lines (None: line not rendered). */
  datatype CardView = CardView(
    userId: string,
    name: Option<string>,
    picture: Option<string>,
    nativeRow: Option<LanguageRow>,
    learningRow: Option<LanguageRow>)

  /** What a card's button hands to the callback it was given. */
  datatype Action = SendRequest(userId: string) | AcceptRequest(requestId: string)

  /** A card's button: whether it is disabled, its text, and the call its click makes. */
  datatype Button = Button(disabled: bool, text: string, onClick: Action)

  /**
   * A language line of the request cards, rendered only when the language is
   * truthy; `flag` is what `getLanguageFlag` gives for that language.
   */
  function LanguageLine(prefix: string, language: Option<string>, flag: Option<string>): (row: Option<LanguageRow>)
    ensures row.Some? <==> Truthy(language)
    ensures row.Some? ==> row.value.flag == flag && row.value.text == prefix + language.value
  {
    if Truthy(language) then Some(LanguageRow(flag, prefix + language.value)) else None
  }
}
