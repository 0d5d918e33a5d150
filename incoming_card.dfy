/** The card of an incoming friend request: the sender, and the "Accept Request" button. */
module IncomingCard {
  import opened Wrappers
  import opened Text
  import opened Social
  import FriendCard

  /** This file's copy of `LANGUAGE_TO_FLAG`. */
  const LanguageToFlag: map<string, string> := map[
    "english" := "gb", "spanish" := "es", "french" := "fr", "german" := "de", "mandarin" := "cn",
    "japanese" := "jp", "korean" := "kr", "hindi" := "in", "russian" := "ru", "portuguese" := "pt",
    "arabic" := "sa", "italian" := "it", "turkish" := "tr", "dutch" := "nl"]

  /** This file's copy of `getLanguageFlag`: it behaves exactly as the friend card's. */
  function GetLanguageFlag(language: Option<string>): (r: Option<string>)
    ensures r == FriendCard.GetLanguageFlag(language)
  {
    SameTableAsFriendCard();
    if !Truthy(language) then None
    else
      var countryCode := PropertyRead(LanguageToFlag, Lower(language.value));
      if countryCode.Some? && countryCode.value.IsTruthy() then Some(countryCode.value.Rendered()) else None
  }

  /** The copy of the table is the friend card's. */
  lemma SameTableAsFriendCard()
    ensures LanguageToFlag == FriendCard.LanguageToFlag
  {
  }

  /** The card shows the request's sender; each language line only when that language is truthy. */
  function View(req: FriendRequest): (v: CardView)
    ensures v.userId == req.sender.id && v.name == req.sender.fullName && v.picture == req.sender.profilePic
    ensures v.nativeRow.Some? <==> Truthy(req.sender.nativeLanguage)
    ensures v.learningRow.Some? <==> Truthy(req.sender.learningLanguage)
    ensures v.nativeRow.Some? ==>
      v.nativeRow.value == LanguageRow(FriendCard.GetLanguageFlag(req.sender.nativeLanguage), "Native: " + req.sender.nativeLanguage.value)
    ensures v.learningRow.Some? ==>
      v.learningRow.value == LanguageRow(FriendCard.GetLanguageFlag(req.sender.learningLanguage), "Learning: " + req.sender.learningLanguage.value)
  {
    var s := req.sender;
    CardView(s.id, s.fullName, s.profilePic,
      LanguageLine("Native: ", s.nativeLanguage, GetLanguageFlag(s.nativeLanguage)),
      LanguageLine("Learning: ", s.learningLanguage, GetLanguageFlag(s.learningLanguage)))
  }

  /** Nothing about the recipient reaches the card. */
  lemma ViewIgnoresRecipient(req: FriendRequest, other: User)
    ensures View(req.(recipient := other)) == View(req)
  {
  }

  const Accepting := "⏳ Accepting..."
  const AcceptLabel := "✓ Accept Request"

  /** The accept button: disabled and labelled "Accepting..." while the mutation is pending; a click accepts `req._id`. */
  function AcceptButton(req: FriendRequest, isPending: bool): (b: Button)
    ensures b.disabled <==> isPending
    ensures b.text == (if isPending then Accepting else AcceptLabel)
    ensures b.disabled <==> b.text == Accepting
    ensures b.onClick == AcceptRequest(req.id)
  {
    Button(isPending, if isPending then Accepting else AcceptLabel, AcceptRequest(req.id))
  }
}
