/** The card of an accepted friend request: it shows the request's recipient. */
module AcceptRequest {
  import opened Wrappers
  import opened Text
  import opened Social
  import FriendCard

  /** This file's copy of `LANGUAGE_TO_FLAG`. */
  const LanguageToFlag: map<string, string> := map[
    "english" := "gb", "spanish" := "es", "french" := "fr", "german" := "de", "mandarin" := "cn",
    "japanese" := "jp", "korean" := "kr", "hindi" := "in", "russian" := "ru", "portuguese" := "pt",
    "arabic" := "sa", "italian" := "it", "turkish" := "tr", "dutch" := "nl"]

  /** This file's copy of `getLanguageFlag`: it behaves exactly as the friend card's. */
  function GetLanguageFlag(language: Option<string>): (r: Option<string>)
    ensures r == FriendCard.GetLanguageFlag(language)
  {
    SameTableAsFriendCard();
    if !Truthy(language) then None
    else
      var countryCode := PropertyRead(LanguageToFlag, Lower(language.value));
      if countryCode.Some? && countryCode.value.IsTruthy() then Some(countryCode.value.Rendered()) else None
  }

  /** The copy of the table is the friend card's. */
  lemma SameTableAsFriendCard()
    ensures LanguageToFlag == FriendCard.LanguageToFlag
  {
  }

  /** The card shows the request's recipient; each language line only when that language is truthy. */
  function View(req: FriendRequest): (v: CardView)
    ensures v.userId == req.recipient.id && v.name == req.recipient.fullName && v.picture == req.recipient.profilePic
    ensures v.nativeRow.Some? <==> Truthy(req.recipient.nativeLanguage)
    ensures v.learningRow.Some? <==> Truthy(req.recipient.learningLanguage)
    ensures v.nativeRow.Some? ==>
      v.nativeRow.value == LanguageRow(FriendCard.GetLanguageFlag(req.recipient.nativeLanguage), "Native: " + req.recipient.nativeLanguage.value)
    ensures v.learningRow.Some? ==>
      v.learningRow.value == LanguageRow(FriendCard.GetLanguageFlag(req.recipient.learningLanguage), "Learning: " + req.recipient.learningLanguage.value)
  {
    var r := req.recipient;
    CardView(r.id, r.fullName, r.profilePic,
      LanguageLine("Native: ", r.nativeLanguage, GetLanguageFlag(r.nativeLanguage)),
      LanguageLine("Learning: ", r.learningLanguage, GetLanguageFlag(r.learningLanguage)))
  }

  /** Nothing about the sender reaches the card. */
  lemma ViewIgnoresSender(req: FriendRequest, other: User)
    ensures View(req.(sender := other)) == View(req)
  {
  }
}
