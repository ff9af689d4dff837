/**
 * The sessions report: fetched sessions with an empty purpose relabelled as
 * assignments, a conjunctive filter on email, minimum duration and session
 * type, and the line chart drawn from the filtered list.
 */
module Sessions {
  import opened Wrappers
  import opened Seqs
  import opened Text

  /**
   * A row of the sessions endpoint (JSON keys userEmail, session_for,
   * Session_Started, Session_Ended, Session_Duration_Txt, Session_Duration).
   */
  datatype Session = Session(
    userEmail: string,
    sessionFor: string,
    sessionStarted: string,
    sessionEnded: string,
    sessionDurationTxt: string,
    sessionDuration: int)

  /** The purpose given to sessions that arrive without one. */
  const DefaultSessionFor := "assignment"

  // ---------------------------------------------------------------------------
  // Normalisation of the fetched rows

  function NormaliseSession(s: Session): (t: Session)
    ensures t.sessionFor == if s.sessionFor == "" then DefaultSessionFor else s.sessionFor
    ensures t.sessionFor != ""
    ensures t == s.(sessionFor := t.sessionFor)
    ensures s.sessionFor != "" ==> t == s
  {
    if s.sessionFor == "" then s.(sessionFor := DefaultSessionFor) else s
  }

  /** The fetched list after the `session_for` fix-up, as a value. */
  function Normalised(data: seq<Session>): (r: seq<Session>)
    ensures |r| == |data|
    ensures forall i :: 0 <= i < |r| ==>
      r[i].sessionFor == (if data[i].sessionFor == "" then DefaultSessionFor else data[i].sessionFor)
    ensures forall i :: 0 <= i < |r| ==> r[i] == data[i].(sessionFor := r[i].sessionFor)
  {
    seq(|data|, i requires 0 <= i < |data| => NormaliseSession(data[i]))
  }

  /** Normalising an already normalised list changes nothing. */
  lemma NormalisedIdempotent(data: seq<Session>)
    ensures Normalised(Normalised(data)) == Normalised(data)
  {
  }

  /**
   * The `.map` over the fetched rows, which writes `session_for` into each row
   * in place: every row whose purpose is empty gets "assignment".
   */
  method NormaliseFetched(data: array<Session>)
    modifies data
    ensures data[..] == Normalised(old(data[..]))
  {
    var i := 0;
    while i < data.Length
      invariant 0 <= i <= data.Length
      invariant forall k :: 0 <= k < i ==> data[k] == NormaliseSession(old(data[k]))
      invariant forall k :: i <= k < data.Length ==> data[k] == old(data[k])
    {
      if data[i].sessionFor == "" {
        data[i] := data[i].(sessionFor := DefaultSessionFor);
      }
      i := i + 1;
    }
  }

  // ---------------------------------------------------------------------------
  // The filter

  /**
   * JavaScript's `duration >= threshold` with the threshold a `<select>` string:
   * the string is converted with `Number`, and a comparison with NaN is false.
   */
  predicate AtLeast(duration: int, threshold: string)
  {
    match ToNumber(threshold)
    case Some(n) => duration >= n
    case None => false
  }

  /** The predicate of `filteredSessions`. */
  predicate PassesFilter(s: Session, filterEmail: string, filterDuration: string, filterSessionType: string)
  {
    && Includes(s.userEmail, filterEmail)
    && AtLeast(s.sessionDuration, filterDuration)
    && (filterSessionType == "" || s.sessionFor == filterSessionType)
  }

  /** `filteredSessions`. */
  function FilterSessions(sessions: seq<Session>, filterEmail: string, filterDuration: string, filterSessionType: string): (r: seq<Session>)
    ensures forall s :: s in r <==> s in sessions && PassesFilter(s, filterEmail, filterDuration, filterSessionType)
  {
    Filter(sessions, s => PassesFilter(s, filterEmail, filterDuration, filterSessionType))
  }

  /**
   * A session passes exactly when its email contains the email filter (case
   * sensitive), its duration reaches the threshold (the empty choice meaning 0),
   * and the type filter is empty or names its type.
   */
  lemma PassesFilterMeaning(s: Session, filterEmail: string, threshold: nat, filterSessionType: string)
    ensures PassesFilter(s, filterEmail, NatToString(threshold), filterSessionType) <==>
      && (exists i :: OccursAt(s.userEmail, filterEmail, i))
      && s.sessionDuration >= threshold
      && (filterSessionType == "" || s.sessionFor == filterSessionType)
    ensures PassesFilter(s, filterEmail, "", filterSessionType) <==>
      && (exists i :: OccursAt(s.userEmail, filterEmail, i))
      && s.sessionDuration >= 0
      && (filterSessionType == "" || s.sessionFor == filterSessionType)
  {
    IncludesIffOccurs(s.userEmail, filterEmail);
    NatToStringRoundTrip(threshold);
  }

  /** The filtered sessions are an order-preserving subsequence of the sessions. */
  lemma FilterSessionsIsSubsequence(sessions: seq<Session>, filterEmail: string, filterDuration: string, filterSessionType: string)
    ensures IsSubsequence(FilterSessions(sessions, filterEmail, filterDuration, filterSessionType), sessions)
  {
    FilterIsSubsequence(sessions, s => PassesFilter(s, filterEmail, filterDuration, filterSessionType));
  }

  /** With every filter empty, every session with a non-negative duration is listed, in order. */
  lemma EmptyFiltersKeepAll(sessions: seq<Session>)
    requires forall i :: 0 <= i < |sessions| ==> sessions[i].sessionDuration >= 0
    ensures FilterSessions(sessions, "", "", "") == sessions
  {
    forall s | s in sessions
      ensures PassesFilter(s, "", "", "")
    {
      assert StartsWith(s.userEmail, "");
    }
    FilterKeepsAll(sessions, s => PassesFilter(s, "", "", ""));
  }

  /** Raising the duration threshold only removes sessions. */
  lemma HigherThresholdNarrows(sessions: seq<Session>, filterEmail: string, low: nat, high: nat, filterSessionType: string)
    requires low <= high
    ensures IsSubsequence(
      FilterSessions(sessions, filterEmail, NatToString(high), filterSessionType),
      FilterSessions(sessions, filterEmail, NatToString(low), filterSessionType))
  {
    NatToStringRoundTrip(low);
    NatToStringRoundTrip(high);
    FilterMonotone(sessions,
      s => PassesFilter(s, filterEmail, NatToString(low), filterSessionType),
      s => PassesFilter(s, filterEmail, NatToString(high), filterSessionType));
  }

  // ---------------------------------------------------------------------------
  // The chart

  const LabelPrefix := "Session "

  /** `filteredSessions.map((session, index) => `Session ${index + 1}`)`. */
  function ChartLabels(filtered: seq<Session>): (labels: seq<string>)
    ensures |labels| == |filtered|
  {
    seq(|filtered|, i requires 0 <= i < |filtered| => LabelPrefix + NatToString(i + 1))
  }

  /** `filteredSessions.map(session => session.Session_Duration)`. */
  function ChartValues(filtered: seq<Session>): (values: seq<int>)
    ensures |values| == |filtered|
    ensures forall i :: 0 <= i < |values| ==> values[i] == filtered[i].sessionDuration
  {
    seq(|filtered|, i requires 0 <= i < |filtered| => filtered[i].sessionDuration)
  }

  /** Label `i` names point `i`: it is "Session " followed by the number `i + 1`, and no two labels coincide. */
  lemma ChartLabelsNumberPoints(filtered: seq<Session>)
    ensures forall i :: 0 <= i < |filtered| ==>
      StartsWith(ChartLabels(filtered)[i], LabelPrefix)
      && ToNumber(ChartLabels(filtered)[i][|LabelPrefix|..]) == Some(i + 1)
    ensures NoDuplicates(ChartLabels(filtered))
  {
    var labels := ChartLabels(filtered);
    forall i | 0 <= i < |filtered|
      ensures StartsWith(labels[i], LabelPrefix) && ToNumber(labels[i][|LabelPrefix|..]) == Some(i + 1)
    {
      assert labels[i][|LabelPrefix|..] == NatToString(i + 1);
      NatToStringRoundTrip(i + 1);
    }
    forall i, j | 0 <= i < j < |labels|
      ensures labels[i] != labels[j]
    {
      assert labels[i][|LabelPrefix|..] == NatToString(i + 1);
      assert labels[j][|LabelPrefix|..] == NatToString(j + 1);
      NatToStringInjective(i + 1, j + 1);
    }
  }

  // ---------------------------------------------------------------------------
  // The component's state

  /** The table's React state: the sessions and the three filter inputs. */
  class SessionTable {
    var sessions: seq<Session>
    var filterEmail: string
    var filterDuration: string
    var filterSessionType: string

    constructor ()
      ensures sessions == [] && filterEmail == "" && filterDuration == "" && filterSessionType == ""
    {
      sessions := [];
      filterEmail := "";
      filterDuration := "";
      filterSessionType := "";
    }

    /** The fetch resolved with `data`: fix up `session_for` in place, then `setSessions`. */
    method Fetched(data: array<Session>)
      modifies this`sessions, data
      ensures sessions == Normalised(old(data[..])) && data[..] == sessions
    {
      NormaliseFetched(data);
      sessions := data[..];
    }

    method SetFilterEmail(value: string)
      modifies this`filterEmail
      ensures filterEmail == value
    {
      filterEmail := value;
    }

    method SetFilterDuration(value: string)
      modifies this`filterDuration
      ensures filterDuration == value
    {
      filterDuration := value;
    }

    method SetFilterSessionType(value: string)
      modifies this`filterSessionType
      ensures filterSessionType == value
    {
      filterSessionType := value;
    }

    function Filtered(): seq<Session>
      reads this
    {
      FilterSessions(sessions, filterEmail, filterDuration, filterSessionType)
    }

    /** The chart: as many labels as values, one pair per listed session, in list order. */
    function Chart(): (chart: (seq<string>, seq<int>))
      reads this
      ensures |chart.0| == |chart.1| == |Filtered()|
      ensures forall i :: 0 <= i < |chart.1| ==> chart.1[i] == Filtered()[i].sessionDuration
    {
      (ChartLabels(Filtered()), ChartValues(Filtered()))
    }
  }
}
