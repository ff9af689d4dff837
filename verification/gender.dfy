/**
 * The gender sensor adapter of the capture page: it listens for the SDK's
 * gender result, keeps the reported value for display, and hands the page a
 * record through `setUserData`.
 *
 * The listener is registered once, on mount, so the function it runs keeps
 * the values of that first render: the page's record as it was then, and the
 * adapter's own `gender` state, which was "" then.
 */
module Gender {
  import opened Wrappers
  import opened Text
  import opened MorphCast

  /** `evt.detail.output.mostConfident || ""`: a missing value (or an empty one) becomes "". */
  function EventGender(mostConfident: Option<string>): (g: string)
    ensures mostConfident.None? ==> g == ""
    ensures mostConfident.Some? ==> g == mostConfident.value
  {
    mostConfident.GetOr("")
  }

  /** The male picture is shown when the lower-cased value is "male". */
  predicate ShowsMale(gender: string)
  {
    Lower(gender) == "male"
  }

  /** The female picture is shown when the lower-cased value is "female". */
  predicate ShowsFemale(gender: string)
  {
    Lower(gender) == "female"
  }

  /**
   * The two pictures exclude each other, ignore ASCII case, and are both
   * hidden for the empty value the component starts with.
   */
  lemma DisplayConditions(gender: string)
    ensures !(ShowsMale(gender) && ShowsFemale(gender))
    ensures ShowsMale(Lower(gender)) == ShowsMale(gender)
    ensures ShowsFemale(Lower(gender)) == ShowsFemale(gender)
    ensures !ShowsMale("") && !ShowsFemale("")
  {
    LowerIdempotent(gender);
    assert Lower("") == "";
  }

  /** `{ ...props.userData, gender: gender }`: the given snapshot with only its gender replaced. */
  function ListenerWrite(snapshot: UserData, gender: string): (r: UserData)
    ensures r.gender == gender
    ensures r.userName == snapshot.userName && r.age == snapshot.age
    ensures r.emotion == snapshot.emotion && r.engagement == snapshot.engagement
    ensures r.features == snapshot.features && r.time == snapshot.time
  {
    snapshot.(gender := gender)
  }

  /** The adapter's React state and the values its listener closed over. */
  class GenderAdapter {
    /** The `gender` state the component renders. */
    var gender: string
    /** `props.userData` of the first render. */
    const capturedUserData: UserData
    /** `gender` of the first render: its `useState` initial value. */
    const capturedGender: string := ""

    /** Mounting with the page's record; nothing has been reported yet. */
    constructor (userData: UserData)
      ensures gender == "" && capturedUserData == userData && capturedGender == ""
      ensures !ShowsMale(gender) && !ShowsFemale(gender)
    {
      gender := "";
      capturedUserData := userData;
      new;
      DisplayConditions("");
    }

    /**
     * A gender result arrived: the displayed value becomes the reported one,
     * while the record handed to `setUserData` is the first render's record with
     * the first render's gender, whatever was reported.
     */
    method OnGenderResult(mostConfident: Option<string>) returns (written: UserData)
      modifies this`gender
      ensures gender == EventGender(mostConfident)
      ensures written == ListenerWrite(capturedUserData, capturedGender)
      ensures written.gender == ""
    {
      gender := EventGender(mostConfident);
      written := ListenerWrite(capturedUserData, capturedGender);
    }
  }

  /**
   * On the mounted page, type "Bob", leave the field, and let the SDK report
   * "Female": the listener's record replaces the page's, so the name is gone
   * and no gender is recorded.
   */
  method StaleListenerScenario() returns (record: UserData)
    ensures record.userName == "" && record.gender == ""
  {
    var page := new CapturePage();
    var adapter := new GenderAdapter(page.userData);
    page.NameChanged("Bob");
    page.NameBlurred();
    var written := adapter.OnGenderResult(Some("Female"));
    page.SetUserData(written);
    record := page.userData;
  }

  /**
   * The update the adapter is meant to make: the page's current record with
   * the reported gender, every other field kept.
   */
  function FreshGenderUpdate(current: UserData, mostConfident: Option<string>): (r: UserData)
    ensures r.gender == EventGender(mostConfident)
    ensures r == current.(gender := r.gender)
  {
    ListenerWrite(current, EventGender(mostConfident))
  }

  /** The same steps with the intended update: the name stays and the female picture's value is recorded. */
  method FreshListenerScenario() returns (record: UserData)
    ensures record.userName == "Bob" && record.gender == "Female" && ShowsFemale(record.gender)
  {
    var page := new CapturePage();
    page.NameChanged("Bob");
    page.NameBlurred();
    page.SetUserData(FreshGenderUpdate(page.userData, Some("Female")));
    record := page.userData;
    assert Lower(record.gender) == "female";
  }

  /** What reaches the capture page as it is wired: name edits, leaving the field, and gender results. */
  datatype PageEvent = Typed(value: string) | Blurred | GenderReported(mostConfident: Option<string>)

  /**
   * The page as it is put together: only the gender adapter is handed
   * `setUserData`, and it always hands back the first render's record, whose age
   * is still empty. The age therefore never changes, and whatever happens after
   * mounting, the database holds only the record stored on mount.
   */
  method WiredPageRun(events: seq<PageEvent>) returns (stored: seq<Write>)
    ensures stored == [Write(SavePath(""), InitialUserData)]
  {
    var page := new CapturePage();
    var adapter := new GenderAdapter(page.userData);
    var i := 0;
    while i < |events|
      invariant 0 <= i <= |events|
      invariant page.Valid()
      invariant page.userData.age == NoAge
      invariant page.sink == [Write(SavePath(""), InitialUserData)]
      invariant adapter.capturedUserData == InitialUserData
    {
      match events[i] {
        case Typed(value) =>
          page.NameChanged(value);
        case Blurred =>
          page.NameBlurred();
        case GenderReported(mostConfident) =>
          var written := adapter.OnGenderResult(mostConfident);
          page.SetUserData(written);
      }
      i := i + 1;
    }
    stored := page.sink;
  }
}
