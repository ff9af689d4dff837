/**
 * The face-analysis capture page: the observation record, the name field with
 * its typing flag, and the effect that appends the whole record to the
 * realtime database under "data/<name>" when the age changes and the gate
 * (not typing, or a name present) is open.
 */
module MorphCast {

  /** `age` holds the empty string until a number is reported. */
  datatype Age = NoAge | Years(years: int)

  /** `serverTimestamp()`: a placeholder the database replaces with its own clock when it stores the record. */
  datatype Timestamp = ServerTimestamp

  /** The page's `userData` record. */
  datatype UserData = UserData(
    userName: string,
    age: Age,
    gender: string,
    emotion: seq<string>,
    engagement: int,
    features: seq<string>,
    time: Timestamp)

  /** The record the page mounts with. */
  const InitialUserData := UserData("", NoAge, "", [], 0, [], ServerTimestamp)

  /** The condition both the age effect and `saveToFirebase` test: not typing, or a name is present. */
  predicate SaveAllowed(isTyping: bool, userName: string)
  {
    !isTyping || userName != ""
  }

  /** The database location a record is pushed under. */
  function SavePath(userName: string): (path: string)
    ensures |path| == |userName| + 5
    ensures path[..5] == "data/" && path[5..] == userName
  {
    "data/" + userName
  }

  /** One `push` under `path` followed by `set` of `record`. */
  datatype Write = Write(path: string, record: UserData)

  /**
   * The writes the age effect makes after a render showing `next`, when the
   * previous render showed age `prevAge`: React runs the effect only when the
   * age differs, and the effect saves only when the gate lets it.
   */
  function AgeEffect(prevAge: Age, next: UserData, isTyping: bool): (w: seq<Write>)
    ensures |w| <= 1
    ensures |w| == 1 <==> next.age != prevAge && SaveAllowed(isTyping, next.userName)
    ensures |w| == 1 ==> w[0].record == next && w[0].path == SavePath(next.userName)
  {
    if next.age != prevAge && SaveAllowed(isTyping, next.userName) then
      [Write(SavePath(next.userName), next)]
    else []
  }

  /** Edits that leave the age alone never save. */
  lemma NoSaveWithoutAgeChange(prevAge: Age, next: UserData, isTyping: bool)
    requires next.age == prevAge
    ensures AgeEffect(prevAge, next, isTyping) == []
  {
  }

  /** While the name field is being typed into and is still empty, nothing is saved. */
  lemma NoSaveWhileTypingUnnamed(prevAge: Age, next: UserData)
    requires next.userName == ""
    ensures AgeEffect(prevAge, next, true) == []
  {
  }

  /** The writes of a run of `setUserData` calls with the typing flag fixed, starting after a render at age `prevAge`. */
  function Writes(prevAge: Age, updates: seq<UserData>, isTyping: bool): seq<Write>
    decreases |updates|
  {
    if updates == [] then []
    else AgeEffect(prevAge, updates[0], isTyping) + Writes(updates[0].age, updates[1..], isTyping)
  }

  /** The number of times the age differs from the one before it. */
  function AgeChanges(prevAge: Age, updates: seq<UserData>): nat
    decreases |updates|
  {
    if updates == [] then 0
    else (if updates[0].age != prevAge then 1 else 0) + AgeChanges(updates[0].age, updates[1..])
  }

  /**
   * With a name present, every change of the age saves exactly once and a
   * repeated age saves nothing: no debouncing and no coalescing. Each write
   * carries the record as it was at that change.
   */
  lemma {:induction false} OneWritePerAgeChange(prevAge: Age, updates: seq<UserData>, isTyping: bool)
    requires forall i :: 0 <= i < |updates| ==> updates[i].userName != ""
    ensures |Writes(prevAge, updates, isTyping)| == AgeChanges(prevAge, updates)
    ensures forall w :: w in Writes(prevAge, updates, isTyping) ==> w in WritesOf(updates)
    decreases |updates|
  {
    if updates != [] {
      OneWritePerAgeChange(updates[0].age, updates[1..], isTyping);
      assert WritesOf(updates) == [Write(SavePath(updates[0].userName), updates[0])] + WritesOf(updates[1..]);
    }
  }

  /** Each record saved under its own name's path. */
  function WritesOf(updates: seq<UserData>): (w: seq<Write>)
    ensures |w| == |updates|
    ensures forall i :: 0 <= i < |w| ==> w[i].record == updates[i] && w[i].path == SavePath(updates[i].userName)
  {
    seq(|updates|, i requires 0 <= i < |updates| => Write(SavePath(updates[i].userName), updates[i]))
  }

  /** The capture page's React state and what it has appended to the database. */
  class CapturePage {
    var userData: UserData
    var isTyping: bool
    var sink: seq<Write>

    /** Every stored record sits under the path of its own name. */
    ghost predicate Valid()
      reads this
    {
      forall w :: w in sink ==> w.path == SavePath(w.record.userName)
    }

    /**
     * Mounting: the initial record, not typing, and the age effect's first run,
     * which React makes after the first render whatever the age; the gate is
     * open, so the initial record is stored under "data/".
     */
    constructor ()
      ensures Valid()
      ensures userData == InitialUserData && !isTyping
      ensures sink == [Write(SavePath(""), InitialUserData)]
    {
      userData := InitialUserData;
      isTyping := false;
      sink := [];
      new;
      if SaveAllowed(isTyping, userData.userName) {
        SaveToFirebase();
      }
    }

    /** The name input's `onChange`: only the name changes, and the field counts as being typed into. */
    method NameChanged(value: string)
      requires Valid()
      modifies this
      ensures Valid()
      ensures userData == old(userData).(userName := value)
      ensures isTyping
      ensures sink == old(sink)
    {
      userData := userData.(userName := value);
      isTyping := true;
      // the age is unchanged, so the age effect does not run
    }

    /** The name input's `onBlur`. */
    method NameBlurred()
      requires Valid()
      modifies this`isTyping
      ensures Valid()
      ensures !isTyping
    {
      isTyping := false;
    }

    /**
     * `setUserData(next)` from a child component, followed by the age effect of
     * the render it causes; the database only ever grows.
     */
    method SetUserData(next: UserData)
      requires Valid()
      modifies this`userData, this`sink
      ensures Valid()
      ensures userData == next
      ensures sink == old(sink) + AgeEffect(old(userData).age, next, isTyping)
    {
      var prevAge := userData.age;
      userData := next;
      if userData.age != prevAge && SaveAllowed(isTyping, userData.userName) {
        SaveToFirebase();
      }
    }

    /** `saveToFirebase`: checks the gate once more and pushes the whole current record under its name's path. */
    method SaveToFirebase()
      requires Valid()
      modifies this`sink
      ensures Valid()
      ensures sink == old(sink) + (if SaveAllowed(isTyping, userData.userName) then [Write(SavePath(userData.userName), userData)] else [])
    {
      if SaveAllowed(isTyping, userData.userName) {
        sink := sink + [Write(SavePath(userData.userName), userData)];
      }
    }
  }

  /** Type "Bob", leave the field, then an age of 30 arrives: one record for Bob is stored after the mount's. */
  method NamedSaveScenario() returns (stored: seq<Write>)
    ensures stored == [
      Write("data/", InitialUserData),
      Write("data/Bob", InitialUserData.(userName := "Bob", age := Years(30)))]
  {
    var page := new CapturePage();
    page.NameChanged("Bob");
    page.NameBlurred();
    page.SetUserData(page.userData.(age := Years(30)));
    stored := page.sink;
    assert "data/" + "" == "data/";
    assert "data/" + "Bob" == "data/Bob";
  }

  /** Ages 20, 25, 25 for a named user: the repeated 25 stores nothing. */
  method RepeatedAgeScenario() returns (stored: seq<Write>)
    ensures |stored| == 3
    ensures stored[1].record.age == Years(20) && stored[2].record.age == Years(25)
  {
    var page := new CapturePage();
    page.NameChanged("Ann");
    page.SetUserData(page.userData.(age := Years(20)));
    page.SetUserData(page.userData.(age := Years(25)));
    page.SetUserData(page.userData.(age := Years(25)));
    stored := page.sink;
  }
}
