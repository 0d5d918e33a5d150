/** The friend card: the language-to-flag table and its lookup, `capitalize`, and the chat link. */
module FriendCard {
  import opened Wrappers
  import opened Text
  import opened Social
  import App

  /** `LANGUAGE_TO_FLAG`: lower-case language name to ISO 3166-1 alpha-2 country code. */
  const LanguageToFlag: map<string, string> := map[
    "english" := "gb", "spanish" := "es", "french" := "fr", "german" := "de", "mandarin" := "cn",
    "japanese" := "jp", "korean" := "kr", "hindi" := "in", "russian" := "ru", "portuguese" := "pt",
    "arabic" := "sa", "italian" := "it", "turkish" := "tr", "dutch" := "nl"]

  /** The table's keys and codes, in the order the object literal lists them. */
  const FlagLanguages: seq<string> := ["english", "spanish", "french", "german", "mandarin", "japanese",
    "korean", "hindi", "russian", "portuguese", "arabic", "italian", "turkish", "dutch"]
  const FlagCodes: seq<string> := ["gb", "es", "fr", "de", "cn", "jp", "kr", "in", "ru", "pt", "sa", "it", "tr", "nl"]

  /** The table's keys are exactly the listed languages. */
  lemma FlagTableKeysListed()
    ensures forall k :: k in LanguageToFlag ==> k in FlagLanguages
    ensures forall i :: 0 <= i < |FlagLanguages| ==> FlagLanguages[i] in LanguageToFlag
  {
  }

  lemma FlagLanguagesDistinct()
    ensures Distinct(FlagLanguages)
  {
  }

  lemma FlagCodesDistinct()
    ensures Distinct(FlagCodes)
  {
  }

  /** The table has 14 keys. */
  lemma FlagTableSize()
    ensures |LanguageToFlag.Keys| == 14
  {
    FlagTableKeysListed();
    FlagLanguagesDistinct();
    DistinctElements(FlagLanguages);
    var keys := set k | k in FlagLanguages;
    assert forall k :: k in keys ==> k in LanguageToFlag.Keys by {
      forall k | k in keys ensures k in LanguageToFlag.Keys {
        var i :| 0 <= i < |FlagLanguages| && FlagLanguages[i] == k;
      }
    }
    assert LanguageToFlag.Keys == keys;
  }

  /** Every key is already lower-case, so every key is reachable by the lookup. */
  lemma FlagKeysLowerCase()
    ensures forall i :: 0 <= i < |FlagLanguages| ==> Lower(FlagLanguages[i]) == FlagLanguages[i]
  {
    forall i | 0 <= i < |FlagLanguages| ensures Lower(FlagLanguages[i]) == FlagLanguages[i] {
      LowerKeeps(FlagLanguages[i]);
    }
  }

  /** The i-th language maps to the i-th code, and every code is one of the listed ones. */
  lemma FlagTableCodes()
    ensures forall i :: 0 <= i < |FlagLanguages| ==> LanguageToFlag[FlagLanguages[i]] == FlagCodes[i]
    ensures forall c :: c in LanguageToFlag.Values ==> c in FlagCodes
  {
  }

  /** There are 14 codes, each two lower-case letters. */
  lemma FlagCodesShape()
    ensures |FlagCodes| == 14
    ensures forall i :: 0 <= i < |FlagCodes| ==> |FlagCodes[i]| == 2 && IsLower(FlagCodes[i][0]) && IsLower(FlagCodes[i][1])
  {
  }

  /** No two languages share a flag. */
  lemma FlagTableInjective(k: string, k': string)
    requires k in LanguageToFlag && k' in LanguageToFlag && k != k'
    ensures LanguageToFlag[k] != LanguageToFlag[k']
  {
  }

  /**
   * `getLanguageFlag`: the text the flag image's address is built from, or
   * None where the card renders nothing. `LANGUAGE_TO_FLAG[language.toLowerCase()]`
   * is a plain property read, so besides the table's own keys it also finds
   * `constructor` and `__proto__`, inherited from `Object.prototype`; both are
   * truthy objects and render as the text of the object.
   */
  function GetLanguageFlag(language: Option<string>): (r: Option<string>)
    ensures !Truthy(language) ==> r == None
    ensures Truthy(language) && Lower(language.value) in LanguageToFlag ==> r == Some(LanguageToFlag[Lower(language.value)])
    ensures Truthy(language) && Lower(language.value) == "constructor" ==> r == Some(ObjectFunctionText)
    ensures Truthy(language) && Lower(language.value) == "__proto__" ==> r == Some(ObjectPrototypeText)
    ensures r.Some? <==>
      (Truthy(language) && (Lower(language.value) in LanguageToFlag || Lower(language.value) in {"constructor", "__proto__"}))
  {
    if !Truthy(language) then None
    else
      var key := Lower(language.value);
      LowerCaseInheritedNames(language.value);
      FlagTableCodes();
      FlagCodesShape();
      var countryCode := PropertyRead(LanguageToFlag, key);
      if countryCode.Some? && countryCode.value.IsTruthy() then Some(countryCode.value.Rendered()) else None
  }

  /** Any spelling of "constructor" gets an image, built from the text of `Object` rather than from a country code. */
  lemma InheritedNameGetsImage(language: string)
    requires Lower(language) == "constructor"
    ensures GetLanguageFlag(Some(language)) == Some(ObjectFunctionText)
    ensures GetLanguageFlag(Some(language)).value !in LanguageToFlag.Values
  {
    assert |language| == 11;
    FlagTableCodes();
    FlagCodesShape();
  }

  /** "Constructor" is such a spelling. */
  lemma CapitalizedConstructor()
    ensures Lower("Constructor") == "constructor"
  {
    var s := "Constructor";
    assert forall j :: 0 <= j < |s| ==> LowerChar(s[j]) == "constructor"[j];
    LowerMatches(s, "constructor");
  }

  /** The lookup ignores letter case: two spellings that lower-case alike get the same flag. */
  lemma {:induction false} FlagIgnoresCase(a: string, b: string)
    requires Lower(a) == Lower(b)
    ensures GetLanguageFlag(Some(a)) == GetLanguageFlag(Some(b))
    ensures GetLanguageFlag(Some(a)) == GetLanguageFlag(Some(Lower(a)))
  {
    LowerIdempotent(a);
  }

  /** `src` of the flag image for a country code. */
  function FlagSource(countryCode: string): (src: string)
    ensures StartsWith(src, "https://flagcdn.com/24x18/") && EndsWith(src, ".png")
  {
    "https://flagcdn.com/24x18/" + countryCode + ".png"
  }

  /** Two spellings that do not lower-case alike never show the same flag image. */
  lemma {:induction false} DistinctLanguagesDistinctFlags(a: string, b: string)
    requires GetLanguageFlag(Some(a)).Some? && GetLanguageFlag(Some(b)).Some?
    requires Lower(a) != Lower(b)
    ensures FlagSource(GetLanguageFlag(Some(a)).value) != FlagSource(GetLanguageFlag(Some(b)).value)
  {
    var ca, cb := GetLanguageFlag(Some(a)).value, GetLanguageFlag(Some(b)).value;
    FlagTableCodes();
    FlagCodesShape();
    if Lower(a) in LanguageToFlag && Lower(b) in LanguageToFlag {
      FlagTableInjective(Lower(a), Lower(b));
      var p := "https://flagcdn.com/24x18/";
      assert ca != cb;
      assert |ca| == 2 && |cb| == 2;
      assert FlagSource(ca)[|p|..|p| + 2] == ca;
      assert FlagSource(cb)[|p|..|p| + 2] == cb;
    } else {
      assert |ca| != |cb|;
    }
  }

  /** `capitalize`: the first character upper-cased, the rest lower-cased ("" stays ""). */
  function Capitalize(s: string): (r: string)
    ensures |r| == |s|
    ensures s != [] ==> r[0] == UpperChar(s[0])
    ensures forall i :: 1 <= i < |s| ==> r[i] == LowerChar(s[i])
  {
    if s == [] then "" else Upper(s[..1]) + Lower(s[1..])
  }

  /** A string that `capitalize` leaves alone: no lower-case first letter, no upper-case letter after it. */
  predicate IsCapitalized(s: string)
  {
    (s != [] ==> !IsLower(s[0])) && forall i :: 1 <= i < |s| ==> !IsUpper(s[i])
  }

  /** `capitalize` yields a capitalized string, is the identity exactly on those, and so is idempotent. */
  lemma CapitalizeFixedPoints(s: string)
    ensures IsCapitalized(Capitalize(s))
    ensures Capitalize(s) == s <==> IsCapitalized(s)
    ensures Capitalize(Capitalize(s)) == Capitalize(s)
  {
    if IsCapitalized(s) {
      assert forall i :: 0 <= i < |s| ==> Capitalize(s)[i] == s[i];
    }
    var c := Capitalize(s);
    assert forall i :: 0 <= i < |c| ==> Capitalize(c)[i] == c[i];
  }

  /** `to` of the card's chat link. */
  function ChatLink(friend: User): (to: string)
    ensures StartsWith(to, "/chat/") && to[6..] == friend.id
  {
    "/chat/" + friend.id
  }

  /** A friend's chat link opens the `/chat/:id` route with the friend's id. */
  lemma ChatLinkOpensChat(friend: User)
    requires App.IsSegment(friend.id)
    ensures App.RouteOf(ChatLink(friend)) == Some(App.ChatRoute(friend.id))
  {
    App.RouteOfRoutePath(App.ChatRoute(friend.id));
  }

  /** The card; `capitalize` is applied to both languages, which therefore have to be present. */
  function View(friend: User): (v: CardView)
    requires friend.nativeLanguage.Some? && friend.learningLanguage.Some?
    ensures v.userId == friend.id && v.name == friend.fullName && v.picture == friend.profilePic
    ensures v.nativeRow.Some? && v.learningRow.Some?
    ensures v.nativeRow.value.flag == GetLanguageFlag(friend.nativeLanguage)
    ensures v.learningRow.value.flag == GetLanguageFlag(friend.learningLanguage)
    ensures v.nativeRow.value.text == "Native: " + Capitalize(friend.nativeLanguage.value)
    ensures v.learningRow.value.text == "Learning: " + Capitalize(friend.learningLanguage.value)
  {
    CardView(friend.id, friend.fullName, friend.profilePic,
      Some(LanguageRow(GetLanguageFlag(friend.nativeLanguage), "Native: " + Capitalize(friend.nativeLanguage.value))),
      Some(LanguageRow(GetLanguageFlag(friend.learningLanguage), "Learning: " + Capitalize(friend.learningLanguage.value))))
  }
}
