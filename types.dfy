/**
 * The event classifier: an event's `type` string is mapped to one of four
 * categories by testing four fixed prefixes, in a fixed order, with
 * `startsWith`. Anything else is rejected with a VALIDATION-tagged error.
 */
module EventTypes {
  import opened Wrappers
  import opened Errors

  datatype EventType = Payment | Hold | Warning | Batch

  const PaymentPrefix: string := "uk.gov.defra.ffc.pay.payment."
  const HoldPrefix: string := "uk.gov.defra.ffc.pay.hold."
  const WarningPrefix: string := "uk.gov.defra.ffc.pay.warning."
  const BatchPrefix: string := "uk.gov.defra.ffc.pay.batch."

  /** The order in which `getEventType` tests the prefixes. */
  const ChainOrder: seq<EventType> := [Payment, Hold, Warning, Batch]

  function Prefix(c: EventType): string {
    match c
    case Payment => PaymentPrefix
    case Hold => HoldPrefix
    case Warning => WarningPrefix
    case Batch => BatchPrefix
  }

  /** The string `getEventType` returns for each category. */
  function Name(c: EventType): string {
    match c
    case Payment => "payment"
    case Hold => "hold"
    case Warning => "warning"
    case Batch => "batch"
  }

  /** JavaScript's `s.startsWith(p)`. */
  predicate StartsWith(s: string, p: string) {
    |p| <= |s| && s[..|p|] == p
  }

  function UnknownEventType(t: string): Error {
    Error("Unknown event type: " + t, Validation)
  }

  /**
   * `getEventType`: the category whose prefix `t` starts with, or the
   * VALIDATION error when none does.
   */
  function GetEventType(t: string): (r: Result<EventType, Error>)
    ensures r.Success? ==> StartsWith(t, Prefix(r.value))
    ensures r.Failure? <==> forall c: EventType :: !StartsWith(t, Prefix(c))
    ensures r.Failure? ==> r.error == UnknownEventType(t) && r.error.category == Validation
  {
    if StartsWith(t, PaymentPrefix) then Success(Payment)
    else if StartsWith(t, HoldPrefix) then Success(Hold)
    else if StartsWith(t, WarningPrefix) then Success(Warning)
    else if StartsWith(t, BatchPrefix) then Success(Batch)
    else Failure(UnknownEventType(t))
  }

  /** The first category in `order` whose prefix `t` starts with. */
  function FirstMatch(t: string, order: seq<EventType>): (r: Option<EventType>)
    ensures r.Some? ==> r.value in order && StartsWith(t, Prefix(r.value))
    ensures r.None? ==> forall c :: c in order ==> !StartsWith(t, Prefix(c))
  {
    if order == [] then None
    else if StartsWith(t, Prefix(order[0])) then Some(order[0])
    else FirstMatch(t, order[1..])
  }

  /** All four prefixes share the first 21 characters and differ at index 21. */
  lemma PrefixesDifferAt21(c1: EventType, c2: EventType)
    ensures |Prefix(c1)| > 21 && |Prefix(c2)| > 21
    ensures Prefix(c1)[..21] == Prefix(c2)[..21]
    ensures c1 != c2 ==> Prefix(c1)[21] != Prefix(c2)[21]
  {
  }

  /** The prefixes are pairwise non-overlapping: no string starts with two of them. */
  lemma PrefixesExclusive(t: string, c1: EventType, c2: EventType)
    requires StartsWith(t, Prefix(c1)) && StartsWith(t, Prefix(c2))
    ensures c1 == c2
  {
    PrefixesDifferAt21(c1, c2);
    assert Prefix(c1)[21] == t[..|Prefix(c1)|][21] == t[21];
    assert Prefix(c2)[21] == t[..|Prefix(c2)|][21] == t[21];
  }

  /** Whichever prefix `t` starts with is the category returned. */
  lemma ClassifiesByMatchingPrefix(t: string, c: EventType)
    requires StartsWith(t, Prefix(c))
    ensures GetEventType(t) == Success(c)
  {
    var r := GetEventType(t);
    assert r.Success?;
    PrefixesExclusive(t, r.value, c);
  }

  /** The match found is the earliest in `order`: no type before it matches. */
  lemma {:induction false} FirstMatchIsEarliest(t: string, order: seq<EventType>)
    requires FirstMatch(t, order).Some?
    ensures exists i | 0 <= i < |order| ::
              order[i] == FirstMatch(t, order).value && forall j | 0 <= j < i :: !StartsWith(t, Prefix(order[j]))
    decreases |order|
  {
    if StartsWith(t, Prefix(order[0])) {
      assert order[0] == FirstMatch(t, order).value;
    } else {
      FirstMatchIsEarliest(t, order[1..]);
      var i :| 0 <= i < |order[1..]| && order[1..][i] == FirstMatch(t, order[1..]).value &&
               forall j | 0 <= j < i :: !StartsWith(t, Prefix(order[1..][j]));
      forall j | 0 <= j < i + 1 ensures !StartsWith(t, Prefix(order[j])) {
        if j > 0 {
          assert order[j] == order[1..][j - 1];
        }
      }
      assert order[i + 1] == FirstMatch(t, order).value;
    }
  }

  /** `getEventType`'s if/else-if chain is the first match in `ChainOrder`. */
  lemma GetEventTypeIsFirstMatch(t: string)
    ensures GetEventType(t).ToOption() == FirstMatch(t, ChainOrder)
  {
    var o1, o2, o3 := [Hold, Warning, Batch], [Warning, Batch], [Batch];
    assert ChainOrder[1..] == o1 && o1[1..] == o2 && o2[1..] == o3 && o3[1..] == [];
    assert FirstMatch(t, o3) == if StartsWith(t, BatchPrefix) then Some(Batch) else None;
    assert FirstMatch(t, o2) == if StartsWith(t, WarningPrefix) then Some(Warning) else FirstMatch(t, o3);
    assert FirstMatch(t, o1) == if StartsWith(t, HoldPrefix) then Some(Hold) else FirstMatch(t, o2);
    assert FirstMatch(t, ChainOrder) == if StartsWith(t, PaymentPrefix) then Some(Payment) else FirstMatch(t, o1);
  }

  /** Testing the prefixes in any order that covers all four gives the same answer. */
  lemma OrderIsIrrelevant(t: string, order: seq<EventType>)
    requires forall c: EventType :: c in order
    ensures FirstMatch(t, order) == GetEventType(t).ToOption()
  {
    var m := FirstMatch(t, order);
    if m.Some? {
      ClassifiesByMatchingPrefix(t, m.value);
    } else {
      assert forall c: EventType :: !StartsWith(t, Prefix(c));
    }
  }

  /** The empty string matches no prefix. */
  lemma EmptyTypeRejected()
    ensures GetEventType("") == Failure(Error("Unknown event type: ", Validation))
  {
    assert "Unknown event type: " + "" == "Unknown event type: ";
  }

  /** A prefix without its trailing dot is rejected. */
  lemma TrailingDotRequired(c: EventType)
    ensures GetEventType(Prefix(c)[..|Prefix(c)| - 1]).Failure?
  {
    var t := Prefix(c)[..|Prefix(c)| - 1];
    forall c2: EventType ensures !StartsWith(t, Prefix(c2)) {
      PrefixesDifferAt21(c, c2);
    }
  }

  /** `startsWith` is not a substring test: a prefix appearing after other text does not match. */
  lemma PrefixLaterInStringRejected(lead: string, c: EventType, rest: string)
    requires lead != [] && lead[0] != 'u'
    ensures GetEventType(lead + Prefix(c) + rest).Failure?
  {
    var t := lead + Prefix(c) + rest;
    assert t[0] == lead[0];
    forall c2: EventType ensures !StartsWith(t, Prefix(c2)) {
      PrefixesDifferAt21(c2, c2);
      assert Prefix(c2)[0] == 'u';
    }
  }
}
