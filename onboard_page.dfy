/**
 * The onboarding page: the form record initialised from the current user,
 * single-field updates, the random avatar, the language list, submission,
 * and the mutation's success and error handling.
 */
module OnboardPage {
  import opened Wrappers
  import opened Text
  import opened Social
  import opened QueryCache
  import FriendCard

  /** `LANGUAGES`: the options of both language selects, in display order. */
  const Languages: seq<string> := [
    "English", "Spanish", "French", "German", "Mandarin", "Japanese",
    "Korean", "Hindi", "Russian", "Portuguese", "Arabic", "Italian",
    "Turkish", "Dutch"]

  /** The 14 options lower-case to the flag table's keys, in the table's own order. */
  lemma LanguagesLowerToFlagKeys()
    ensures |Languages| == |FriendCard.FlagLanguages| == 14
    ensures forall i :: 0 <= i < |Languages| ==> Lower(Languages[i]) == FriendCard.FlagLanguages[i]
  {
    forall i | 0 <= i < |Languages| ensures Lower(Languages[i]) == FriendCard.FlagLanguages[i] {
      LowerMatches(Languages[i], FriendCard.FlagLanguages[i]);
    }
  }

  /** Any list that lower-cases to the table's keys, in order, is duplicate-free and covers the table. */
  lemma LowerAgreeWithFlagTable(xs: seq<string>)
    requires |xs| == |FriendCard.FlagLanguages|
    requires forall i :: 0 <= i < |xs| ==> Lower(xs[i]) == FriendCard.FlagLanguages[i]
    ensures Distinct(xs)
    ensures forall i :: 0 <= i < |xs| ==> Lower(xs[i]) in FriendCard.LanguageToFlag
    ensures forall i :: 0 <= i < |xs| ==> FriendCard.GetLanguageFlag(Some(xs[i])).Some?
    ensures forall k :: k in FriendCard.LanguageToFlag ==> exists i :: 0 <= i < |xs| && Lower(xs[i]) == k
  {
    FriendCard.FlagLanguagesDistinct();
    FriendCard.FlagTableKeysListed();
    forall i, j | 0 <= i < j < |xs| ensures xs[i] != xs[j] {
      assert Lower(xs[i]) != Lower(xs[j]);
    }
    forall i | 0 <= i < |xs| ensures FriendCard.GetLanguageFlag(Some(xs[i])).Some? {
      assert xs[i] != "" by { assert |Lower(xs[i])| > 0; }
    }
    forall k | k in FriendCard.LanguageToFlag
      ensures exists i :: 0 <= i < |xs| && Lower(xs[i]) == k
    {
      var i :| 0 <= i < |FriendCard.FlagLanguages| && FriendCard.FlagLanguages[i] == k;
      assert Lower(xs[i]) == k;
    }
  }

  /** The options are distinct, each has a flag, and every language of the table is offered. */
  lemma LanguagesAgreeWithFlagTable()
    ensures Distinct(Languages)
    ensures forall i :: 0 <= i < |Languages| ==> Lower(Languages[i]) in FriendCard.LanguageToFlag
    ensures forall i :: 0 <= i < |Languages| ==> FriendCard.GetLanguageFlag(Some(Languages[i])).Some?
    ensures forall k :: k in FriendCard.LanguageToFlag ==> exists i :: 0 <= i < |Languages| && Lower(Languages[i]) == k
  {
    LanguagesLowerToFlagKeys();
    LowerAgreeWithFlagTable(Languages);
  }

  /** A chosen option is displayed unchanged by the friend card's `capitalize`. */
  lemma LanguagesAreCapitalized()
    ensures forall i :: 0 <= i < |Languages| ==> FriendCard.Capitalize(Languages[i]) == Languages[i]
  {
    assert forall i :: 0 <= i < |Languages| ==> FriendCard.IsCapitalized(Languages[i]);
    forall i | 0 <= i < |Languages| ensures FriendCard.Capitalize(Languages[i]) == Languages[i] {
      FriendCard.CapitalizeFixedPoints(Languages[i]);
    }
  }

  /** The six fields of `formState`. */
  datatype Field = FullName | Bio | NativeLanguage | LearningLanguage | Location | ProfilePic

  datatype FormState = FormState(
    fullName: string,
    bio: string,
    nativeLanguage: string,
    learningLanguage: string,
    location: string,
    profilePic: string)

  /** `formState[field]`. */
  function Get(form: FormState, field: Field): string
  {
    match field
    case FullName => form.fullName
    case Bio => form.bio
    case NativeLanguage => form.nativeLanguage
    case LearningLanguage => form.learningLanguage
    case Location => form.location
    case ProfilePic => form.profilePic
  }

  /** Two forms with the same six field values are the same form. */
  lemma FormExtensionality(a: FormState, b: FormState)
    requires forall f :: Get(a, f) == Get(b, f)
    ensures a == b
  {
    assert Get(a, FullName) == Get(b, FullName) && Get(a, Bio) == Get(b, Bio);
    assert Get(a, NativeLanguage) == Get(b, NativeLanguage) && Get(a, LearningLanguage) == Get(b, LearningLanguage);
    assert Get(a, Location) == Get(b, Location) && Get(a, ProfilePic) == Get(b, ProfilePic);
  }

  /** The user's value for a form field. */
  function UserValue(user: User, field: Field): Option<string>
  {
    match field
    case FullName => user.fullName
    case Bio => user.bio
    case NativeLanguage => user.nativeLanguage
    case LearningLanguage => user.learningLanguage
    case Location => user.location
    case ProfilePic => user.profilePic
  }

  /** `authUser?.x || ""`. */
  function ValueOrEmpty(authUser: Option<User>, field: Field): string
  {
    if authUser.Some? && Truthy(UserValue(authUser.value, field)) then UserValue(authUser.value, field).value else ""
  }

  /** The initial `formState`: each field is the user's value, or "" when the user or the value is missing. */
  function InitialForm(authUser: Option<User>): (form: FormState)
    ensures forall f :: Get(form, f) == ValueOrEmpty(authUser, f)
    ensures authUser.None? ==> form == FormState("", "", "", "", "", "")
  {
    FormState(
      ValueOrEmpty(authUser, FullName), ValueOrEmpty(authUser, Bio),
      ValueOrEmpty(authUser, NativeLanguage), ValueOrEmpty(authUser, LearningLanguage),
      ValueOrEmpty(authUser, Location), ValueOrEmpty(authUser, ProfilePic))
  }

  /** `{ ...form, [field]: value }`: the named field takes the value, the other five keep theirs. */
  function WithField(form: FormState, field: Field, value: string): (r: FormState)
    ensures Get(r, field) == value
    ensures forall f :: f != field ==> Get(r, f) == Get(form, f)
  {
    match field
    case FullName => form.(fullName := value)
    case Bio => form.(bio := value)
    case NativeLanguage => form.(nativeLanguage := value)
    case LearningLanguage => form.(learningLanguage := value)
    case Location => form.(location := value)
    case ProfilePic => form.(profilePic := value)
  }

  /** Setting a field to the value it already has changes nothing; setting it twice keeps the last value. */
  lemma WithFieldLaws(form: FormState, field: Field, v: string, w: string)
    ensures WithField(form, field, Get(form, field)) == form
    ensures WithField(WithField(form, field, v), field, w) == WithField(form, field, w)
  {
    FormExtensionality(WithField(form, field, Get(form, field)), form);
    FormExtensionality(WithField(WithField(form, field, v), field, w), WithField(form, field, w));
  }

  const AvatarPrefix := "https://avatar.iran.liara.run/public/"

  /** The random avatar's address for index `idx`. */
  function AvatarUrl(idx: nat): (url: string)
    ensures StartsWith(url, AvatarPrefix) && EndsWith(url, ".png")
  {
    AvatarPrefix + Decimal(idx) + ".png"
  }

  /** The index an avatar address names, if it has the avatar shape. */
  function AvatarIndex(url: string): Option<nat>
  {
    if StartsWith(url, AvatarPrefix) && EndsWith(url, ".png") && |url| > |AvatarPrefix| + 4
       && AllDigits(url[|AvatarPrefix|..|url| - 4])
    then Some(DigitsValue(url[|AvatarPrefix|..|url| - 4]))
    else None
  }

  /** The index can be read back from the address, so distinct indices give distinct avatars. */
  lemma AvatarUrlRoundTrip(idx: nat)
    ensures AvatarIndex(AvatarUrl(idx)) == Some(idx)
  {
    var d := Decimal(idx);
    var url := AvatarUrl(idx);
    assert url[|AvatarPrefix|..|url| - 4] == d;
  }

  /** The onboarding mutation's error toast: the server's message, else a generic one; never empty. */
  function ErrorMessage(serverMessage: Option<string>): (text: string)
    ensures Truthy(serverMessage) ==> text == serverMessage.value
    ensures !Truthy(serverMessage) ==> text == "Something went wrong."
    ensures text != ""
  {
    if Truthy(serverMessage) then serverMessage.value else "Something went wrong."
  }

  /** The onboarding mutation's `onSuccess`: a toast, and the `authUser` query marked stale. */
  method OnOnboardingSuccess(queryClient: QueryClient) returns (toast: string)
    requires queryClient.Valid()
    modifies queryClient
    ensures queryClient.Valid() && queryClient.cached == old(queryClient.cached)
    ensures queryClient.stale == old(queryClient.stale) + ({AuthUserKey} * queryClient.cached)
    ensures toast == "Onboarding complete!"
  {
    toast := "Onboarding complete!";
    queryClient.InvalidateQueries(KeyFilter(AuthUserKey));
    InvalidateByKey(old(queryClient.cached), old(queryClient.stale), AuthUserKey);
  }

  /** The page's own state. */
  class OnboardPage {
    var formState: FormState

    /** `useState({...})` from the current user. */
    constructor (authUser: Option<User>)
      ensures formState == InitialForm(authUser)
    {
      formState := InitialForm(authUser);
    }

    /** `handleChange`: the input named `field` takes `value`. */
    method HandleChange(field: Field, value: string)
      modifies this
      ensures formState == WithField(old(formState), field, value)
    {
      formState := WithField(formState, field, value);
    }

    /** `handleRandomAvatar` for the index the random draw produced. */
    method HandleRandomAvatar(idx: nat) returns (toast: string)
      requires 1 <= idx <= 100
      modifies this
      ensures formState == WithField(old(formState), ProfilePic, AvatarUrl(idx))
      ensures toast == "Random avatar generated!"
    {
      var avatar := AvatarUrl(idx);
      formState := WithField(formState, ProfilePic, avatar);
      toast := "Random avatar generated!";
    }

    /** `handleSubmit`: the body posted to `/auth/onboarding` is the current form, unchanged. */
    method HandleSubmit() returns (payload: FormState)
      ensures payload == formState
    {
      payload := formState;
    }
  }
}
