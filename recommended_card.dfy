/** The card of a recommended user, with its own copy of the flag table and the "Add Friend" button. */
module RecommendedCard {
  import opened Wrappers
  import opened Text
  import opened Social
  import FriendCard

  /** This file's copy of `LANGUAGE_TO_FLAG`. */
  const LanguageToFlag: map<string, string> := map[
    "english" := "gb", "spanish" := "es", "french" := "fr", "german" := "de", "mandarin" := "cn",
    "japanese" := "jp", "korean" := "kr", "hindi" := "in", "russian" := "ru", "portuguese" := "pt",
    "arabic" := "sa", "italian" := "it", "turkish" := "tr", "dutch" := "nl"]

  /** This file's copy of `getLanguageFlag`: it behaves exactly as the friend card's. */
  function GetLanguageFlag(language: Option<string>): (r: Option<string>)
    ensures r == FriendCard.GetLanguageFlag(language)
  {
    SameTableAsFriendCard();
    if !Truthy(language) then None
    else
      var countryCode := PropertyRead(LanguageToFlag, Lower(language.value));
      if countryCode.Some? && countryCode.value.IsTruthy() then Some(countryCode.value.Rendered()) else None
  }

  /** The copy of the table is the friend card's. */
  lemma SameTableAsFriendCard()
    ensures LanguageToFlag == FriendCard.LanguageToFlag
  {
  }

  const RequestSent := "✓ Request Sent"
  const AddFriend := "➕ Add Friend"

  /** The button: disabled and labelled "Request Sent" once a request is out, and a click sends `user._id`. */
  function RequestButton(user: User, isRequested: bool): (b: Button)
    ensures b.disabled <==> isRequested
    ensures b.text == (if isRequested then RequestSent else AddFriend)
    ensures b.disabled <==> b.text == RequestSent
    ensures b.onClick == SendRequest(user.id)
  {
    Button(isRequested, if isRequested then RequestSent else AddFriend, SendRequest(user.id))
  }

  /** The card: both language lines always; an absent language renders as empty text. */
  function View(user: User): (v: CardView)
    ensures v.userId == user.id && v.name == user.fullName && v.picture == user.profilePic
    ensures v.nativeRow == Some(LanguageRow(FriendCard.GetLanguageFlag(user.nativeLanguage), "Native: " + user.nativeLanguage.GetOr("")))
    ensures v.learningRow == Some(LanguageRow(FriendCard.GetLanguageFlag(user.learningLanguage), "Learning: " + user.learningLanguage.GetOr("")))
  {
    CardView(user.id, user.fullName, user.profilePic,
      Some(LanguageRow(GetLanguageFlag(user.nativeLanguage), "Native: " + user.nativeLanguage.GetOr(""))),
      Some(LanguageRow(GetLanguageFlag(user.learningLanguage), "Learning: " + user.learningLanguage.GetOr(""))))
  }
}
