/**
 * The landlord's tracking page: the initials shown in the avatar, the name shown in the
 * header, the status shown for each month of a property's payment history, and the
 * session reset of `secureLogout`. Page rendering, toasts and API calls are not modelled.
 */
module Tracking {
  import opened Common
  import opened PropertyModel
  import opened RentModel
  import RentRoutes

  // ---------------------------------------------------------------------------------------
  // Splitting on spaces

  /** `pieces.join(' ')`. */
  function Join(pieces: seq<string>): string
    requires |pieces| >= 1
  {
    if |pieces| == 1 then pieces[0] else pieces[0] + " " + Join(pieces[1..])
  }

  /** `s.split(' ')`: the pieces between single spaces, empty pieces included. */
  function Split(s: string): (pieces: seq<string>)
    ensures |pieces| == CountChar(s, ' ') + 1
    ensures forall i :: 0 <= i < |pieces| ==> ' ' !in pieces[i]
  {
    if s == [] then [""]
    else if s[0] == ' ' then [""] + Split(s[1..])
    else
      var rest := Split(s[1..]);
      [[s[0]] + rest[0]] + rest[1..]
  }

  /** Joining the pieces with spaces gives the text back. */
  lemma {:induction false} JoinOfSplit(s: string)
    ensures Join(Split(s)) == s
  {
    if s != [] {
      JoinOfSplit(s[1..]);
      var rest := Split(s[1..]);
      if s[0] != ' ' && |rest| > 1 {
        assert rest[1..][0..] == rest[1..];
        calc {
          Join(Split(s));
          ([s[0]] + rest[0]) + " " + Join(rest[1..]);
          [s[0]] + (rest[0] + " " + Join(rest[1..]));
          [s[0]] + s[1..];
        }
      }
    }
  }

  /** Text without a space is one piece. */
  lemma {:induction false} SplitWithoutSpace(s: string)
    requires ' ' !in s
    ensures Split(s) == [s]
  {
    if s != [] {
      assert s[0] != ' ' && ' ' !in s[1..];
      SplitWithoutSpace(s[1..]);
      assert [s[0]] + s[1..] == s;
    }
  }

  /** A space-free first word is split off as the first piece. */
  lemma {:induction false} SplitAfterWord(a: string, b: string)
    requires ' ' !in a
    ensures Split(a + " " + b) == [a] + Split(b)
  {
    if a == [] {
      assert a + " " + b == [' '] + b;
    } else {
      assert (a + " " + b)[1..] == a[1..] + " " + b;
      assert (a + " " + b)[0] == a[0] != ' ' && ' ' !in a[1..];
      SplitAfterWord(a[1..], b);
      assert [a[0]] + a[1..] == a;
    }
  }

  /** Splitting space-free pieces joined by spaces gives the pieces back. */
  lemma {:induction false} SplitOfJoin(pieces: seq<string>)
    requires |pieces| >= 1 && forall i :: 0 <= i < |pieces| ==> ' ' !in pieces[i]
    ensures Split(Join(pieces)) == pieces
  {
    if |pieces| == 1 {
      SplitWithoutSpace(pieces[0]);
    } else {
      SplitAfterWord(pieces[0], Join(pieces[1..]));
      SplitOfJoin(pieces[1..]);
    }
  }

  // ---------------------------------------------------------------------------------------
  // Upper case

  /**
   * `toUpperCase` on one character, for ASCII, Latin-1 and the Turkish letters `\U{011F}`, `\U{015F}`
   * and dotless `\U{0131}`; `\U{00DF}` becomes `SS`. Other characters are kept as they are.
   */
  function UpperOf(c: char): string
  {
    if 'a' <= c <= 'z' || ('\U{00E0}' <= c <= '\U{00FE}' && c != '\U{00F7}') then [(c as int - 32) as char]
    else if c == '\U{00FF}' then "\U{0178}"
    else if c == '\U{00DF}' then "SS"
    else if c == '\U{0131}' then "I"
    else if c == '\U{011F}' then "\U{011E}"
    else if c == '\U{015F}' then "\U{015E}"
    else [c]
  }

  function UpperText(s: string): string
  {
    if s == [] then [] else UpperOf(s[0]) + UpperText(s[1..])
  }

  lemma {:induction false} UpperTextConcat(a: string, b: string)
    ensures UpperText(a + b) == UpperText(a) + UpperText(b)
  {
    if a != [] {
      assert (a + b)[1..] == a[1..] + b;
      UpperTextConcat(a[1..], b);
    } else {
      assert a + b == b;
    }
  }

  lemma UpperOfUpper(c: char)
    ensures UpperText(UpperOf(c)) == UpperOf(c)
  {
    var u := UpperOf(c);
    if |u| == 1 {
      assert UpperText(u) == UpperOf(u[0]) + UpperText([]);
    } else {
      assert u == "SS";
      assert UpperText(u) == UpperOf('S') + UpperText(u[1..]);
    }
  }

  /** Upper-casing an upper-cased text changes nothing. */
  lemma {:induction false} UpperTextIdempotent(s: string)
    ensures UpperText(UpperText(s)) == UpperText(s)
  {
    if s != [] {
      UpperTextIdempotent(s[1..]);
      UpperTextConcat(UpperOf(s[0]), UpperText(s[1..]));
      UpperOfUpper(s[0]);
    }
  }

  // ---------------------------------------------------------------------------------------
  // getUserInitials and updateUserDisplay

  /** `s.charAt(0)`: the first character, or the empty text. */
  function FirstChar(s: string): (r: string)
    ensures |r| <= 1 && (s != [] ==> r == [s[0]])
  {
    if s == [] then [] else [s[0]]
  }

  /**
   * `getUserInitials(name)`: `E` without a name; the first character of a one-word name; the
   * first characters of the first and the last space-separated piece otherwise; upper-cased.
   */
  function UserInitials(name: Option<string>): (r: string)
    ensures !Truthy(name) ==> r == "E"
    ensures Truthy(name) && ' ' !in name.value ==> r == UpperText([name.value[0]])
  {
    if !Truthy(name) then "E"
    else
      var names := Split(name.value);
      if ' ' !in name.value then SplitWithoutSpace(name.value); UpperText(FirstChar(names[0]))
      else if |names| == 1 then UpperText(FirstChar(names[0]))
      else UpperText(FirstChar(names[0]) + FirstChar(names[|names| - 1]))
  }

  /**
   * For a name made of two or more space-free pieces joined by single spaces, the initials
   * are the first characters of the first and the last piece, an empty piece giving none.
   */
  lemma InitialsOfFirstAndLastPiece(pieces: seq<string>)
    requires |pieces| >= 2 && forall i :: 0 <= i < |pieces| ==> ' ' !in pieces[i]
    ensures UserInitials(Some(Join(pieces))) == UpperText(FirstChar(pieces[0]) + FirstChar(pieces[|pieces| - 1]))
  {
    var name := Join(pieces);
    assert name == pieces[0] + " " + Join(pieces[1..]);
    assert name[|pieces[0]|] == ' ';
    assert Truthy(Some(name)) && ' ' in name;
    SplitOfJoin(pieces);
    var names := Split(name);
    assert names == pieces && |names| != 1;
  }

  /** A name of one space is truthy, splits into two empty pieces, and has no initials. */
  lemma SingleSpaceHasNoInitials()
    ensures UserInitials(Some(" ")) == ""
  {
    assert Split(" ") == ["", ""];
  }

  /** What the header shows of the signed-in user. */
  datatype User = User(name: Option<string>, displayName: Option<string>, email: Option<string>, picture: Option<string>)

  /** `a || b || fallback` over optional texts. */
  function FirstPresent(a: Option<string>, b: Option<string>, fallback: string): (r: string)
    ensures Truthy(a) ==> r == a.value
    ensures !Truthy(a) && Truthy(b) ==> r == b.value
    ensures !Truthy(a) && !Truthy(b) ==> r == fallback
    ensures fallback != "" ==> r != ""
  {
    if Truthy(a) then a.value else if Truthy(b) then b.value else fallback
  }

  datatype Avatar = Picture(src: string, alt: string) | Initials(text: string)

  datatype UserDisplay = UserDisplay(nameText: string, emailText: string, avatar: Avatar)

  /**
   * `updateUserDisplay(user)`: the name falls back to the display name and then to
   * `Ev Sahibi`; the avatar is the profile picture when there is one, the initials otherwise.
   */
  function UpdateUserDisplay(user: User): (d: UserDisplay)
    ensures d.nameText != ""
    ensures Truthy(user.name) ==> d.nameText == user.name.value
    ensures !Truthy(user.name) && Truthy(user.displayName) ==> d.nameText == user.displayName.value
    ensures !Truthy(user.name) && !Truthy(user.displayName) ==>
      d.nameText == "Ev Sahibi" && (d.avatar.Initials? ==> d.avatar.text == "E")
    ensures d.emailText == if Truthy(user.email) then user.email.value else ""
    ensures d.avatar.Picture? <==> Truthy(user.picture)
    ensures Truthy(user.picture) ==>
      d.avatar == Picture(user.picture.value, FirstPresent(user.name, user.displayName, "Kullan\U{0131}c\U{0131}"))
    ensures !Truthy(user.picture) ==>
      d.avatar == Initials(UserInitials(Some(FirstPresent(user.name, user.displayName, "E"))))
  {
    var nameText := FirstPresent(user.name, user.displayName, "Ev Sahibi");
    var emailText := if Truthy(user.email) then user.email.value else "";
    var avatar := if Truthy(user.picture)
      then Picture(user.picture.value, FirstPresent(user.name, user.displayName, "Kullan\U{0131}c\U{0131}"))
      else Initials(UserInitials(Some(FirstPresent(user.name, user.displayName, "E"))));
    UserDisplay(nameText, emailText, avatar)
  }

  /** The avatar initials are those of the name shown beside them, or `E` when that is the fallback. */
  lemma AvatarMatchesShownName(user: User)
    requires !Truthy(user.picture) && (Truthy(user.name) || Truthy(user.displayName))
    ensures UpdateUserDisplay(user).avatar == Initials(UserInitials(Some(UpdateUserDisplay(user).nameText)))
  {
  }

  // ---------------------------------------------------------------------------------------
  // displayPaymentsHistory

  /** The status shown for month `m`: that of its first non-dues record, `pending` without one. */
  function MonthStatus(payments: seq<Rent>, m: int): (st: RentStatus)
    ensures (forall j :: 0 <= j < |payments| ==> !IsRentFor(payments[j], m)) ==> st == Pending
    ensures forall j :: (0 <= j < |payments| && IsRentFor(payments[j], m)
      && (forall i :: 0 <= i < j ==> !IsRentFor(payments[i], m))) ==> st == payments[j].status
  {
    var found := FirstRentFor(payments, m);
    if found.Some? then payments[found.value].status else Pending
  }

  /** The history table and the CSV export show every month with the same label. */
  lemma SameLabelAsExport(payments: seq<Rent>, m: int)
    ensures StatusLabel(MonthStatus(payments, m)) == RentRoutes.MonthLabel(payments, m)
  {
  }

  /** A row of the history table: the month and year, and the status shown. */
  datatype StatusRow = StatusRow(period: string, status: RentStatus)

  /** The rows of `displayPaymentsHistory(payments, property)` for the year `yearText`. */
  method PaymentsHistory(payments: seq<Rent>, yearText: string) returns (rows: seq<StatusRow>)
    ensures |rows| == 12
    ensures forall m :: 1 <= m <= 12 ==>
      rows[m - 1] == StatusRow(RentRoutes.MonthNames[m - 1] + " " + yearText, MonthStatus(payments, m))
  {
    rows := [];
    var month := 1;
    while month <= 12
      invariant 1 <= month <= 13 && |rows| == month - 1
      invariant forall m :: 1 <= m < month ==>
        rows[m - 1] == StatusRow(RentRoutes.MonthNames[m - 1] + " " + yearText, MonthStatus(payments, m))
    {
      var rentPayment := FirstRentFor(payments, month);
      var rentStatus := if rentPayment.Some? then payments[rentPayment.value].status else Pending;
      assert rentStatus == MonthStatus(payments, month);
      rows := rows + [StatusRow(RentRoutes.MonthNames[month - 1] + " " + yearText, rentStatus)];
      month := month + 1;
    }
  }

  // ---------------------------------------------------------------------------------------
  // secureLogout

  /** The local-storage keys `secureLogout` removes. */
  const LogoutKeys: set<string> := {"token", "authToken", "user", "properties", "payments"}

  /** Local storage after the sensitive keys are removed: every other entry is kept. */
  function ClearedStorage(storage: map<string, string>): (r: map<string, string>)
    ensures forall k :: k in r <==> k in storage && k !in LogoutKeys
    ensures forall k :: k in r ==> r[k] == storage[k]
  {
    storage - LogoutKeys
  }

  /** Removing two key sets one after the other removes their union. */
  lemma RemovalsCompose(storage: map<string, string>, a: set<string>, b: set<string>)
    ensures storage - a - b == storage - (a + b)
  {
  }

  /** Logging out twice leaves the same storage as logging out once. */
  lemma LogoutIdempotent(storage: map<string, string>)
    ensures ClearedStorage(ClearedStorage(storage)) == ClearedStorage(storage)
  {
  }

  /** The page's module-level state and the browser's local storage. */
  class Session {
    var currentUser: Option<User>
    var properties: seq<Property>
    var payments: seq<Rent>
    var storage: map<string, string>

    constructor(user: Option<User>, properties: seq<Property>, payments: seq<Rent>, storage: map<string, string>)
      ensures this.currentUser == user && this.properties == properties
      ensures this.payments == payments && this.storage == storage
    {
      this.currentUser := user;
      this.properties := properties;
      this.payments := payments;
      this.storage := storage;
    }

    /**
     * `secureLogout()`: the five keys are removed one by one and the current user is
     * cleared; the loaded properties and payments stay in memory.
     */
    method SecureLogout()
      modifies this
      ensures storage == ClearedStorage(old(storage))
      ensures currentUser.None?
      ensures properties == old(properties) && payments == old(payments)
    {
      ghost var before := storage;
      storage := storage - {"token"};
      storage := storage - {"authToken"};
      RemovalsCompose(before, {"token"}, {"authToken"});
      storage := storage - {"user"};
      RemovalsCompose(before, {"token", "authToken"}, {"user"});
      storage := storage - {"properties"};
      RemovalsCompose(before, {"token", "authToken", "user"}, {"properties"});
      storage := storage - {"payments"};
      RemovalsCompose(before, {"token", "authToken", "user", "properties"}, {"payments"});
      assert {"token", "authToken", "user", "properties"} + {"payments"} == LogoutKeys;
      assert storage == before - LogoutKeys;
      currentUser := None;
    }
  }
}
