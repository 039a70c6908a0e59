/**
 * The nine `@tool` functions of the restaurant assistant. Every tool is a
 * string formatter over its arguments and a few canned values (account
 * ACC-001, reservation RES-101, three fixed time slots, a five-item menu and
 * its dietary table); none of them reads or writes any store.
 *
 * `update_account` and `search_account` build a local list of the present
 * fields and join it with ", "; they are methods proved against the case-wise
 * reference `AccountFields`. The others are functions.
 */
module RestaurantTools {
  import opened Wrappers
  import opened Text

  // ---------------------------------------------------------------------------
  // Account tools

  /** create_account: confirms the name and email and always hands out ACC-001. */
  function CreateAccount(name: string, email: string): (r: string)
    ensures StartsWith(r, "Account created for " + name + " (" + email + ")")
    ensures EndsWith(r, " with ID: ACC-001")
    ensures |r| == |"Account created for  () with ID: ACC-001"| + |name| + |email|
  {
    "Account created for " + name + " (" + email + ") with ID: ACC-001"
  }

  /**
   * The field list shared by update_account and search_account: `name=...`
   * when the name is truthy, `email=...` when the email is truthy, name first,
   * separated by ", " when both are there, and empty when neither is.
   */
  function AccountFields(name: Option<string>, email: Option<string>): string
  {
    if Truthy(name) && Truthy(email) then "name=" + name.value + ", email=" + email.value
    else if Truthy(name) then "name=" + name.value
    else if Truthy(email) then "email=" + email.value
    else ""
  }

  const MatchedAccount := "ACC-001 - John Doe (john@example.com)"

  /** update_account: builds the list of present fields as the source does and joins it with ", ". */
  method UpdateAccount(accountId: string, name: Option<string> := None, email: Option<string> := None)
    returns (r: string)
    ensures r == "Account " + accountId + " updated: " + AccountFields(name, email)
  {
    var updates: seq<string> := [];
    if Truthy(name) {
      updates := updates + ["name=" + name.value];
    }
    if Truthy(email) {
      updates := updates + ["email=" + email.value];
    }
    assert |updates| == 2 ==> updates[1..] == [updates[1]];
    assert Join(updates, ", ") == AccountFields(name, email);
    r := "Account " + accountId + " updated: " + Join(updates, ", ");
  }

  /** search_account: same field list as the criteria; the match reported is always the canned ACC-001 record. */
  method SearchAccount(name: Option<string> := None, email: Option<string> := None) returns (r: string)
    ensures r == "Found 1 account matching " + AccountFields(name, email) + ": " + MatchedAccount
  {
    var criteria: seq<string> := [];
    if Truthy(name) {
      criteria := criteria + ["name=" + name.value];
    }
    if Truthy(email) {
      criteria := criteria + ["email=" + email.value];
    }
    assert |criteria| == 2 ==> criteria[1..] == [criteria[1]];
    assert Join(criteria, ", ") == AccountFields(name, email);
    r := "Found 1 account matching " + Join(criteria, ", ") + ": " + MatchedAccount;
  }

  /** A `None` and an empty-string argument contribute exactly the same (nothing) to the field list. */
  lemma AccountFieldsIgnoreFalsy(name: Option<string>, email: Option<string>)
    ensures !Truthy(name) ==> AccountFields(name, email) == AccountFields(None, email) == AccountFields(Some(""), email)
    ensures !Truthy(email) ==> AccountFields(name, email) == AccountFields(name, None) == AccountFields(name, Some(""))
    ensures !Truthy(name) && !Truthy(email) ==> AccountFields(name, email) == ""
  {
  }

  /** `name=` opens the field list whenever a name is given, and `email=` closes it whenever an email is given. */
  lemma AccountFieldsOrder(name: Option<string>, email: Option<string>)
    ensures Truthy(name) ==> StartsWith(AccountFields(name, email), "name=" + name.value)
    ensures Truthy(email) ==> EndsWith(AccountFields(name, email), "email=" + email.value)
  {
    var f := AccountFields(name, email);
    if Truthy(name) {
      assert f[..|"name=" + name.value|] == "name=" + name.value;
    }
    if Truthy(email) {
      assert f[|f| - |"email=" + email.value|..] == "email=" + email.value;
    }
  }

  /** With neither field given the reply ends right after "updated: ", e.g. "Account ACC-001 updated: ". */
  lemma UpdateAccountWithoutFields(accountId: string, name: Option<string>, email: Option<string>)
    requires !Truthy(name) && !Truthy(email)
    ensures "Account " + accountId + " updated: " + AccountFields(name, email) == "Account " + accountId + " updated: "
  {
  }

  // ---------------------------------------------------------------------------
  // Booking tools

  const AvailabilityPrefix := "Available slots on "
  const AvailableSlots := " guests: 12:00 PM, 2:00 PM, 6:30 PM"

  /** check_availability: always offers the same three slots, 12:00 PM, 2:00 PM and 6:30 PM. */
  function CheckAvailability(date: string, numberOfGuests: int): (r: string)
    ensures StartsWith(r, AvailabilityPrefix + date + " for ")
    ensures EndsWith(r, AvailableSlots)
  {
    AvailabilityPrefix + date + " for " + IntToString(numberOfGuests) + AvailableSlots
  }

  /**
   * Reads back the `"{date} for {n}"` middle of an availability reply. The
   * party size is the text after the last space, since `str(n)` never holds a
   * space; the date is what precedes the " for " in front of it.
   */
  function ParseDateAndGuests(m: string): Option<(string, int)>
  {
    match LastIndexOf(m, ' ')
    case None => None
    case Some(k) =>
      if k >= 4 && m[k - 4..k] == " for" then
        match ParseInt(m[k + 1..])
        case None => None
        case Some(n) => Some((m[..k - 4], n))
      else None
  }

  /** Reads a check_availability reply back into its date and party size. */
  function ParseAvailability(reply: string): Option<(string, int)>
  {
    match Between(reply, AvailabilityPrefix, AvailableSlots)
    case None => None
    case Some(m) => ParseDateAndGuests(m)
  }

  lemma IntToStringHasNoSpace(n: int)
    ensures ' ' !in IntToString(n)
  {
    var s := IntToString(n);
    forall i | 0 <= i < |s| ensures s[i] != ' ' {
    }
  }

  lemma DateAndGuestsRoundTrip(date: string, numberOfGuests: int)
    ensures ParseDateAndGuests(date + " for " + IntToString(numberOfGuests)) == Some((date, numberOfGuests))
  {
    var n := IntToString(numberOfGuests);
    var head := date + " for";
    IntToStringHasNoSpace(numberOfGuests);
    LastWord(head, n);
    var m := head + [' '] + n;
    var k := |head|;
    assert date + " for " + n == m;
    assert m[..k] == head;
    assert m[k - 4..k] == head[k - 4..] == " for";
    assert m[..k - 4] == head[..k - 4] == date;
    IntRoundTrip(numberOfGuests);
  }

  /** An availability reply decodes back to exactly the date and party size it was built from. */
  lemma AvailabilityRoundTrip(date: string, numberOfGuests: int)
    ensures ParseAvailability(CheckAvailability(date, numberOfGuests)) == Some((date, numberOfGuests))
  {
    var m := date + " for " + IntToString(numberOfGuests);
    assert CheckAvailability(date, numberOfGuests) == AvailabilityPrefix + m + AvailableSlots;
    BetweenRoundTrip(AvailabilityPrefix, m, AvailableSlots);
    DateAndGuestsRoundTrip(date, numberOfGuests);
  }

  /** Two availability replies are equal only when they answer the same date and party size. */
  lemma CheckAvailabilityInjective(d1: string, n1: int, d2: string, n2: int)
    requires CheckAvailability(d1, n1) == CheckAvailability(d2, n2)
    ensures d1 == d2 && n1 == n2
  {
    AvailabilityRoundTrip(d1, n1);
    AvailabilityRoundTrip(d2, n2);
  }

  /** create_booking: always reservation RES-101, always at 7:00 PM. */
  function CreateBooking(date: string, numberOfGuests: int, name: string): (r: string)
    ensures StartsWith(r, "Booking confirmed! Reservation RES-101 for " + name + ", " + IntToString(numberOfGuests) + " guests on ")
    ensures EndsWith(r, date + " at 7:00 PM")
    ensures |r| == |"Booking confirmed! Reservation RES-101 for ,  guests on  at 7:00 PM"|
                   + |name| + |IntToString(numberOfGuests)| + |date|
  {
    "Booking confirmed! Reservation RES-101 for " + name + ", " + IntToString(numberOfGuests) + " guests on " + date + " at 7:00 PM"
  }

  /** Both reservation tools open their reply with this word and the id. */
  const ReservationPrefix := "Reservation "
  const CancelSuffix := " has been cancelled successfully."

  /** cancel_reservation: acknowledges the cancellation of whatever id it is given. */
  function CancelReservation(reservationId: string): (r: string)
    ensures Between(r, ReservationPrefix, CancelSuffix) == Some(reservationId)
  {
    BetweenRoundTrip(ReservationPrefix, reservationId, CancelSuffix);
    ReservationPrefix + reservationId + CancelSuffix
  }

  const CannedDetails := ": John Doe, 4 guests, 2026-03-15 at 6:00 PM, Status: Confirmed"

  /** check_reservation_details: echoes the id and always reports the same canned booking. */
  function CheckReservationDetails(reservationId: string): (r: string)
    ensures Between(r, ReservationPrefix, CannedDetails) == Some(reservationId)
  {
    BetweenRoundTrip(ReservationPrefix, reservationId, CannedDetails);
    ReservationPrefix + reservationId + CannedDetails
  }

  /** Different reservation ids give different replies, for both reservation tools. */
  lemma ReservationRepliesInjective(id1: string, id2: string)
    requires id1 != id2
    ensures CancelReservation(id1) != CancelReservation(id2)
    ensures CheckReservationDetails(id1) != CheckReservationDetails(id2)
  {
  }

  // ---------------------------------------------------------------------------
  // Menu tools

  /** One menu entry; the price is kept as the text Python prints for the float literal. */
  datatype MenuItem = MenuItem(id: string, name: string, price: string)

  const Menu: seq<MenuItem> := [
    MenuItem("M001", "Grilled Salmon", "24.99"),
    MenuItem("M002", "Caesar Salad", "12.99"),
    MenuItem("M003", "Margherita Pizza", "16.99"),
    MenuItem("M004", "Beef Tenderloin", "34.99"),
    MenuItem("M005", "Chocolate Lava Cake", "9.99")
  ]

  const MenuHeader := "Restaurant Menu:"

  function MenuLine(item: MenuItem): string
  {
    "  " + item.id + ": " + item.name + " - $" + item.price
  }

  /** The item lines, in menu order, as the source's list comprehension builds them. */
  function MenuLines(): seq<string>
  {
    seq(|Menu|, i requires 0 <= i < |Menu| => MenuLine(Menu[i]))
  }

  /** get_menu: the header line, then the item lines, newline-separated. */
  function GetMenu(): (r: string)
    ensures StartsWith(r, MenuHeader + "\n")
  {
    StartsWithJoined(MenuHeader + "\n", Join(MenuLines(), "\n"));
    MenuHeader + "\n" + Join(MenuLines(), "\n")
  }

  predicate NewlineFree(item: MenuItem)
  {
    '\n' !in item.id && '\n' !in item.name && '\n' !in item.price
  }

  /** A menu line holds a newline only if one of the item's fields does. */
  lemma MenuLineNewlineFree(item: MenuItem)
    requires NewlineFree(item)
    ensures '\n' !in MenuLine(item)
  {
    assert '\n' !in "  " && '\n' !in ": " && '\n' !in " - $";
  }

  // One lemma per item keeps each character-by-character check small.
  lemma MenuItem0NewlineFree()
    ensures NewlineFree(Menu[0])
  {
    assert '\n' !in "M001" && '\n' !in "Grilled Salmon" && '\n' !in "24.99";
    assert Menu[0] == MenuItem("M001", "Grilled Salmon", "24.99");
  }

  lemma MenuItem1NewlineFree()
    ensures NewlineFree(Menu[1])
  {
    assert '\n' !in "M002" && '\n' !in "Caesar Salad" && '\n' !in "12.99";
    assert Menu[1] == MenuItem("M002", "Caesar Salad", "12.99");
  }

  lemma MenuItem2NewlineFree()
    ensures NewlineFree(Menu[2])
  {
    assert '\n' !in "M003" && '\n' !in "Margherita Pizza" && '\n' !in "16.99";
    assert Menu[2] == MenuItem("M003", "Margherita Pizza", "16.99");
  }

  lemma MenuItem3NewlineFree()
    ensures NewlineFree(Menu[3])
  {
    assert '\n' !in "M004" && '\n' !in "Beef Tenderloin" && '\n' !in "34.99";
    assert Menu[3] == MenuItem("M004", "Beef Tenderloin", "34.99");
  }

  lemma MenuItem4NewlineFree()
    ensures NewlineFree(Menu[4])
  {
    assert '\n' !in "M005" && '\n' !in "Chocolate Lava Cake" && '\n' !in "9.99";
    assert Menu[4] == MenuItem("M005", "Chocolate Lava Cake", "9.99");
  }

  lemma MenuLinesHaveNoNewline()
    ensures forall i :: 0 <= i < |Menu| ==> '\n' !in MenuLine(Menu[i])
  {
    MenuItem0NewlineFree();
    MenuItem1NewlineFree();
    MenuItem2NewlineFree();
    MenuItem3NewlineFree();
    MenuItem4NewlineFree();
    forall i | 0 <= i < |Menu| ensures '\n' !in MenuLine(Menu[i]) {
      MenuLineNewlineFree(Menu[i]);
    }
  }

  /** A header line followed by newline-joined lines splits back into the header and those lines. */
  lemma HeaderAndLinesSplit(header: string, lines: seq<string>)
    requires '\n' !in header && |lines| >= 1
    requires forall i :: 0 <= i < |lines| ==> '\n' !in lines[i]
    ensures Split(header + "\n" + Join(lines, "\n"), '\n') == [header] + lines
  {
    var all := [header] + lines;
    assert all[1..] == lines;
    assert "\n" == ['\n'];
    assert Join(all, "\n") == header + "\n" + Join(lines, "\n");
    assert forall i :: 1 <= i < |all| ==> all[i] == lines[i - 1];
    SplitJoin(all, '\n');
  }

  /**
   * The menu reply is exactly six lines: the header, then M001..M005 in menu
   * order, each `"  {id}: {name} - ${price}"`, with no trailing newline
   * (which would show up as a seventh, empty line).
   */
  lemma GetMenuLines()
    ensures Split(GetMenu(), '\n') == [MenuHeader] + MenuLines()
    ensures |Split(GetMenu(), '\n')| == 1 + |Menu| == 6
  {
    MenuLinesHaveNoNewline();
    assert '\n' !in MenuHeader;
    HeaderAndLinesSplit(MenuHeader, MenuLines());
  }

  // ---------------------------------------------------------------------------
  // Dietary values

  /** The dietary table; each entry is written as item name, " - ", then the nutrition facts. */
  const DietaryInfo: map<string, string> := map[
    "M001" := "Grilled Salmon" + " - " + "450 cal | Protein: 42g | Fat: 22g | Carbs: 8g | Gluten-Free, Dairy-Free",
    "M002" := "Caesar Salad" + " - " + "320 cal | Protein: 12g | Fat: 18g | Carbs: 24g | Contains Gluten, Dairy",
    "M003" := "Margherita Pizza" + " - " + "680 cal | Protein: 24g | Fat: 28g | Carbs: 72g | Vegetarian, Contains Gluten",
    "M004" := "Beef Tenderloin" + " - " + "520 cal | Protein: 48g | Fat: 32g | Carbs: 4g | Gluten-Free",
    "M005" := "Chocolate Lava Cake" + " - " + "480 cal | Protein: 6g | Fat: 24g | Carbs: 58g | Vegan, Contains Gluten"
  ]

  const NotFoundPrefix := "No dietary info found for item "

  /** get_dietary_values_per_item: the table entry for a known id, otherwise a not-found message; never fails. */
  function GetDietaryValuesPerItem(itemId: string): (r: string)
    ensures itemId in DietaryInfo ==> r == DietaryInfo[itemId]
    ensures itemId !in DietaryInfo ==> Between(r, NotFoundPrefix, "") == Some(itemId)
  {
    if itemId in DietaryInfo then DietaryInfo[itemId]
    else
      BetweenRoundTrip(NotFoundPrefix, itemId, "");
      assert NotFoundPrefix + itemId + "" == NotFoundPrefix + itemId;
      NotFoundPrefix + itemId
  }

  /** The dietary table covers exactly the menu's ids. */
  lemma DietaryKeysAreMenuIds()
    ensures DietaryInfo.Keys == set i | 0 <= i < |Menu| :: Menu[i].id
  {
    var ids := set i | 0 <= i < |Menu| :: Menu[i].id;
    assert ids == {"M001", "M002", "M003", "M004", "M005"} by {
      assert Menu[0].id in ids && Menu[1].id in ids && Menu[2].id in ids && Menu[3].id in ids && Menu[4].id in ids;
    }
  }

  /** Each dietary entry opens with the name the menu gives the same id. */
  lemma DietaryEntriesNameTheirItem(i: nat)
    requires i < |Menu|
    ensures StartsWith(DietaryInfo[Menu[i].id], Menu[i].name + " - ")
  {
    var entry := DietaryInfo[Menu[i].id];
    var head := Menu[i].name + " - ";
    StartsWithJoined(head, entry[|head|..]);
    assert entry == head + entry[|head|..];
  }

  /** The reply is the not-found message exactly when the id is not in the table. */
  lemma DietaryNotFoundIff(itemId: string)
    ensures StartsWith(GetDietaryValuesPerItem(itemId), NotFoundPrefix) <==> itemId !in DietaryInfo
  {
    var r := GetDietaryValuesPerItem(itemId);
    if itemId in DietaryInfo {
      assert r[0] != 'N' by {
        if itemId == "M001" { assert r[0] == 'G'; }
        else if itemId == "M002" { assert r[0] == 'C'; }
        else if itemId == "M003" { assert r[0] == 'M'; }
        else if itemId == "M004" { assert r[0] == 'B'; }
        else { assert itemId == "M005"; assert r[0] == 'C'; }
      }
    } else {
      assert r[..|NotFoundPrefix|] == NotFoundPrefix;
    }
  }
}
