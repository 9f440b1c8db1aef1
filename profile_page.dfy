/*
 * The account page (`sb-dev/src/app/profile/page.tsx`): the initials shown in
 * the avatar, the choice between redirecting, the loading screen and the page
 * itself, and the small state machine behind the "Edit" / "Save Changes" /
 * "Cancel" buttons of the profile form.
 */
module ProfilePage {

  datatype Option<T> = None | Some(value: T)

  /** The signed-in user's profile, as far as this page reads it; `name` may be null. */
  datatype Profile = Profile(name: Option<string>, email: string)

  /** The contents of the two inputs of the profile form. */
  datatype FormData = FormData(name: string, email: string)

  /** The `name` attribute of a form input: "name" or "email". */
  datatype Field = NameField | EmailField

  /** The argument passed to `updateProfile`. */
  datatype ProfileUpdate = ProfileUpdate(name: string, email: string)

  /** What the page renders. */
  datatype PageView = Redirect(target: string) | Loading | Shown(initials: string)

  // ---------------------------------------------------------------------------
  // Initials
  // ---------------------------------------------------------------------------

  /** `s.split(sep)` for a one-character separator: the pieces between separators, empty ones included. */
  function Split(s: string, sep: char): (r: seq<string>)
    ensures |r| >= 1
    ensures forall i :: 0 <= i < |r| ==> sep !in r[i]
  {
    if s == [] then [""]
    else
      var tail := Split(s[1..], sep);
      if s[0] == sep then [""] + tail
      else [[s[0]] + tail[0]] + tail[1..]
  }

  /** `pieces.join(sep)`: the pieces with `sep` between neighbours. */
  function Join(pieces: seq<string>, sep: string): string {
    if pieces == [] then ""
    else if |pieces| == 1 then pieces[0]
    else pieces[0] + sep + Join(pieces[1..], sep)
  }

  /**
   * `n[0]` for one piece, as `join` then renders it: the first character, or
   * nothing when the piece is empty (`""[0]` is `undefined`, which `join`
   * writes as the empty string).
   */
  function Head(piece: string): (r: string)
    ensures |r| <= 1
    ensures r == [] <==> piece == []
    ensures r != [] ==> r[0] == piece[0]
  {
    if piece == [] then "" else [piece[0]]
  }

  /** `pieces.map((n) => n[0])`. */
  function Heads(pieces: seq<string>): seq<string> {
    seq(|pieces|, i requires 0 <= i < |pieces| => Head(pieces[i]))
  }

  /** The number of non-empty strings in `pieces`. */
  function NonEmptyCount(pieces: seq<string>): nat {
    if pieces == [] then 0
    else (if pieces[0] == [] then 0 else 1) + NonEmptyCount(pieces[1..])
  }

  /**
   * The characters of `s` that begin a word, a word being a maximal run of
   * characters other than a space; `atStart` says whether the first character
   * of `s` follows a space or the start of the name.
   */
  function WordStarts(s: string, atStart: bool): (r: string)
    ensures |r| <= |s|
  {
    if s == [] then ""
    else if s[0] == ' ' then WordStarts(s[1..], true)
    else (if atStart then [s[0]] else "") + WordStarts(s[1..], false)
  }

  /**
   * The avatar's initials (lines 108-113): "U" when there is no profile or
   * its name is null or empty, otherwise the first character of every piece
   * of the name split at spaces, joined together.
   */
  function Initials(profile: Option<Profile>): (r: string)
    ensures profile.None? || profile.value.name.None? || profile.value.name.value == "" ==> r == "U"
    ensures profile.Some? && profile.value.name.Some? && profile.value.name.value != "" ==>
      var name := profile.value.name.value;
      && r == WordStarts(name, true)
      && |r| <= |Split(name, ' ')|
      && |r| == NonEmptyCount(Split(name, ' '))
  {
    if profile.None? || profile.value.name.None? || profile.value.name.value == "" then "U"
    else
      var name := profile.value.name.value;
      JoinedHeadsAreWordStarts(name);
      JoinedHeadsLength(Split(name, ' '));
      Join(Heads(Split(name, ' ')), "")
  }

  /** Joining with no separator, one piece at the front. */
  lemma JoinEmptyCons(first: string, rest: seq<string>)
    ensures Join([first] + rest, "") == first + Join(rest, "")
  {
    assert ([first] + rest)[1..] == rest;
  }

  /** Heads of a piece list split at its first piece. */
  lemma HeadsCons(first: string, rest: seq<string>)
    ensures Heads([first] + rest) == [Head(first)] + Heads(rest)
  {
  }

  /**
   * The joined first characters of the pieces of `s` are its word starts; the
   * pieces after the first give the word starts of `s` read as the middle of
   * a word.
   */
  lemma {:induction false} JoinedHeadsAreWordStarts(s: string)
    ensures Join(Heads(Split(s, ' ')), "") == WordStarts(s, true)
    ensures Join(Heads(Split(s, ' ')[1..]), "") == WordStarts(s, false)
  {
    if s != [] {
      var tail := Split(s[1..], ' ');
      JoinedHeadsAreWordStarts(s[1..]);
      if s[0] == ' ' {
        assert Split(s, ' ') == [""] + tail;
        assert Split(s, ' ')[1..] == tail;
        HeadsCons("", tail);
        JoinEmptyCons("", Heads(tail));
      } else {
        var first := [s[0]] + tail[0];
        assert Split(s, ' ') == [first] + tail[1..];
        assert Split(s, ' ')[1..] == tail[1..];
        HeadsCons(first, tail[1..]);
        JoinEmptyCons(Head(first), Heads(tail[1..]));
      }
    }
  }

  /** The initials have one character per non-empty piece, so no more than there are pieces. */
  lemma {:induction false} JoinedHeadsLength(pieces: seq<string>)
    ensures |Join(Heads(pieces), "")| == NonEmptyCount(pieces)
    ensures NonEmptyCount(pieces) <= |pieces|
  {
    if pieces != [] {
      JoinedHeadsLength(pieces[1..]);
      assert pieces == [pieces[0]] + pieces[1..];
      HeadsCons(pieces[0], pieces[1..]);
      JoinEmptyCons(Head(pieces[0]), Heads(pieces[1..]));
    }
  }

  /** Joining the pieces of a split with the separator gives back the original string. */
  lemma {:induction false} JoinSplit(s: string, sep: char)
    ensures Join(Split(s, sep), [sep]) == s
  {
    if s != [] {
      var tail := Split(s[1..], sep);
      JoinSplit(s[1..], sep);
      if s[0] == sep {
        assert Split(s, sep) == [""] + tail;
        assert ([""] + tail)[1..] == tail;
      } else {
        var pieces := [[s[0]] + tail[0]] + tail[1..];
        assert Split(s, sep) == pieces;
        assert pieces[1..] == tail[1..];
        assert tail == [tail[0]] + tail[1..];
        if |tail| == 1 {
          assert Join(pieces, [sep]) == [s[0]] + tail[0];
        } else {
          assert Join(pieces, [sep]) == [s[0]] + tail[0] + [sep] + Join(tail[1..], [sep]);
        }
      }
    }
  }

  /** A name that is not the fallback but starts with "U" and has one word shows the same "U". */
  lemma InitialsOfOneWordU(email: string)
    ensures Initials(Some(Profile(Some("Uma"), email))) == "U"
  {
    assert WordStarts("Uma", true) == "U" by {
      assert "Uma"[1..] == "ma" && "ma"[1..] == "a" && "a"[1..] == "";
    }
  }

  /** A name made only of a space is not empty, so there is no fallback, and there are no initials. */
  lemma InitialsOfBlankName(email: string)
    ensures Initials(Some(Profile(Some(" "), email))) == ""
  {
    assert " "[1..] == "";
  }

  /** Two words give two initials; a doubled space adds an empty piece and no initial. */
  lemma InitialsOfTwoWords(email: string)
    ensures Initials(Some(Profile(Some("Jo  Li"), email))) == "JL"
  {
    WordStartsOfJoLi();
  }

  /** The word starts of "Jo  Li", one character at a time. */
  lemma WordStartsOfJoLi()
    ensures WordStarts("Jo  Li", true) == "JL"
  {
    assert "Jo  Li"[1..] == "o  Li" && "o  Li"[1..] == "  Li" && "  Li"[1..] == " Li";
    assert " Li"[1..] == "Li" && "Li"[1..] == "i" && "i"[1..] == "";
  }

  // ---------------------------------------------------------------------------
  // What the page renders
  // ---------------------------------------------------------------------------

  /** Where the page sends a visitor who is not signed in. */
  const SignInPath := "/auth/signin"

  /**
   * The page's choice (lines 44-47, 98-106, 108-113): redirect to the sign-in
   * page when loading has finished and there is no profile, the loading
   * screen while loading, and otherwise the page with its initials.
   */
  function View(isLoading: bool, profile: Option<Profile>): (v: PageView)
    ensures v.Redirect? <==> !isLoading && profile.None?
    ensures v.Redirect? ==> v.target == SignInPath
    ensures v.Loading? <==> isLoading
    ensures v.Shown? <==> !isLoading && profile.Some?
    ensures v.Shown? ==> v.initials == Initials(profile)
  {
    if !isLoading && profile.None? then Redirect(SignInPath)
    else if isLoading then Loading
    else Shown(Initials(profile))
  }

  // ---------------------------------------------------------------------------
  // The profile form
  // ---------------------------------------------------------------------------

  /** `profile.name || ""`: a null or empty name becomes the empty string. */
  function NameOrEmpty(name: Option<string>): (r: string)
    ensures name.Some? ==> r == name.value
    ensures name.None? ==> r == ""
  {
    if name.Some? && name.value != "" then name.value else ""
  }

  /** The form as "Edit" fills it from a profile (lines 52-55). */
  function FormOf(profile: Profile): (f: FormData)
    ensures profile.name.None? ==> f.name == ""
    ensures profile.name.Some? ==> f.name == profile.name.value
    ensures f.email == profile.email
  {
    FormData(NameOrEmpty(profile.name), profile.email)
  }

  /** The value of one input of the form. */
  function Get(form: FormData, field: Field): string {
    match field
    case NameField => form.name
    case EmailField => form.email
  }

  /** `{ ...prev, [name]: value }` (line 83): the form with one input replaced. */
  function Set(form: FormData, field: Field, value: string): (r: FormData)
    ensures Get(r, field) == value
    ensures forall other :: other != field ==> Get(r, other) == Get(form, other)
  {
    match field
    case NameField => form.(name := value)
    case EmailField => form.(email := value)
  }

  /**
   * The page's local state: whether the form is open and what its inputs
   * hold (lines 37-41).
   */
  class ProfilePageState {
    var editing: bool
    var formData: FormData

    /** Not editing, both inputs empty. */
    constructor()
      ensures !editing
      ensures formData == FormData("", "")
    {
      editing := false;
      formData := FormData("", "");
    }

    /** "Edit" (lines 50-58): with a profile, load it into the form and open the form; without one, nothing. */
    method HandleEdit(profile: Option<Profile>)
      modifies this
      ensures profile.Some? ==> editing && formData == FormOf(profile.value)
      ensures profile.None? ==> editing == old(editing) && formData == old(formData)
    {
      if profile.Some? {
        formData := FormOf(profile.value);
        editing := true;
      }
    }

    /** "Cancel" (lines 61-63): close the form; its inputs keep what they hold. */
    method HandleCancel()
      modifies this
      ensures !editing
      ensures formData == old(formData)
    {
      editing := false;
    }

    /**
     * "Save Changes" (lines 66-78): with a profile, send the two inputs to
     * `updateProfile`; close the form only when that succeeds. Without a
     * profile nothing is sent and nothing changes. `succeeds` stands for the
     * outcome of the call.
     */
    method HandleSave(profile: Option<Profile>, succeeds: bool) returns (sent: Option<ProfileUpdate>)
      modifies this
      ensures profile.None? ==> sent == None
      ensures profile.Some? ==> sent == Some(ProfileUpdate(old(formData).name, old(formData).email))
      ensures editing == if profile.Some? && succeeds then false else old(editing)
      ensures formData == old(formData)
    {
      sent := None;
      if profile.Some? {
        sent := Some(ProfileUpdate(formData.name, formData.email));
        if succeeds {
          editing := false;
        }
      }
    }

    /** A change of one input (lines 81-84): that input takes the new value; the other input and `editing` stay. */
    method HandleChange(field: Field, value: string)
      modifies this
      ensures formData == Set(old(formData), field, value)
      ensures editing == old(editing)
    {
      formData := Set(formData, field, value);
    }
  }

  // ---------------------------------------------------------------------------
  // Sessions on a fresh page
  // ---------------------------------------------------------------------------

  /**
   * Opening the form and saving it untouched sends the profile back as it
   * was, except that a null name is sent as the empty string; the form stays
   * open exactly when the update fails.
   */
  method EditThenSave(profile: Profile, succeeds: bool) returns (sent: Option<ProfileUpdate>, editing: bool)
    ensures sent == Some(ProfileUpdate(NameOrEmpty(profile.name), profile.email))
    ensures editing == !succeeds
  {
    var page := new ProfilePageState();
    page.HandleEdit(Some(profile));
    sent := page.HandleSave(Some(profile), succeeds);
    editing := page.editing;
  }

  /** Editing one input and saving sends the new value for it and the profile's value for the other. */
  method EditChangeSave(profile: Profile, field: Field, value: string, succeeds: bool)
    returns (sent: Option<ProfileUpdate>, editing: bool)
    ensures sent.Some?
    ensures Get(FormData(sent.value.name, sent.value.email), field) == value
    ensures forall other :: other != field ==>
      Get(FormData(sent.value.name, sent.value.email), other) == Get(FormOf(profile), other)
    ensures editing == !succeeds
  {
    var page := new ProfilePageState();
    page.HandleEdit(Some(profile));
    page.HandleChange(field, value);
    sent := page.HandleSave(Some(profile), succeeds);
    editing := page.editing;
  }

  /**
   * Cancelling keeps the typed text in the form, but opening the form again
   * discards it: the inputs are reloaded from the profile.
   */
  method EditChangeCancelEdit(profile: Profile, field: Field, value: string)
    returns (afterCancel: FormData, afterReopen: FormData, editing: bool)
    ensures afterCancel == Set(FormOf(profile), field, value)
    ensures afterReopen == FormOf(profile)
    ensures editing
  {
    var page := new ProfilePageState();
    page.HandleEdit(Some(profile));
    page.HandleChange(field, value);
    page.HandleCancel();
    afterCancel := page.formData;
    page.HandleEdit(Some(profile));
    afterReopen := page.formData;
    editing := page.editing;
  }

  /** Without a profile, neither "Edit" nor "Save Changes" does anything: nothing is sent. */
  method SaveWithoutProfile(succeeds: bool) returns (sent: Option<ProfileUpdate>, editing: bool, form: FormData)
    ensures sent == None
    ensures !editing
    ensures form == FormData("", "")
  {
    var page := new ProfilePageState();
    page.HandleEdit(None);
    sent := page.HandleSave(None, succeeds);
    editing := page.editing;
    form := page.formData;
  }
}
