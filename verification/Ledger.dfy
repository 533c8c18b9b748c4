/** apps/server/src/ledger.js: double-entry postings. */
module Ledger {
  import opened Wrappers
  import opened Tables
  import Text

  datatype Movement = Movement(vpa: Vpa, amount: int)

  /** Why an entry was not posted. The first four are thrown before anything is written. */
  datatype PostError =
    | TooFewPostings
    | Unbalanced(total: int)
    | MissingAccount(vpa: Vpa)
    | NotEnough(vpa: Vpa, balance: int, needs: int)
    | DuplicateKey
    | CheckViolation

  function Total(movements: seq<Movement>): int {
    if movements == [] then 0 else Total(movements[..|movements| - 1]) + movements[|movements| - 1].amount
  }

  /** The net change of one account. */
  function NetChange(movements: seq<Movement>, vpa: Vpa): int {
    if movements == [] then 0 else
      var last := movements[|movements| - 1];
      NetChange(movements[..|movements| - 1], vpa) + if last.vpa == vpa then last.amount else 0
  }

  function Names(movements: seq<Movement>): (r: seq<Vpa>)
    ensures |r| == |movements| && forall i :: 0 <= i < |r| ==> r[i] == movements[i].vpa
  {
    seq(|movements|, i requires 0 <= i < |movements| => movements[i].vpa)
  }

  /** The accounts an entry touches, in the order they are locked. */
  function LockOrder(movements: seq<Movement>): seq<Vpa> {
    Text.SortedUnique(Names(movements))
  }

  /** The first name the SELECT did not find. */
  function FirstMissing(names: seq<Vpa>, visible: set<Vpa>): (r: Option<Vpa>)
    ensures r.None? <==> forall v :: v in names ==> v in visible
    ensures r.Some? ==> r.value in names && r.value !in visible
  {
    if names == [] then None
    else if names[0] !in visible then Some(names[0])
    else
      assert forall v :: v in names <==> v == names[0] || v in names[1..];
      FirstMissing(names[1..], visible)
  }

  predicate Overdrawn(account: Account, change: int) {
    account.kind == Customer && account.balance + change < 0
  }

  /** An account's row, or an empty one. */
  function RowOf(accounts: map<Vpa, Account>, v: Vpa): Account {
    if v in accounts then accounts[v] else Account(Customer, 0)
  }

  /** The first locked account the entry would overdraw. */
  function FirstShort(accounts: map<Vpa, Account>, names: seq<Vpa>, movements: seq<Movement>): (r: Option<Vpa>)
    ensures r.None? <==> forall v :: v in names ==> !Overdrawn(RowOf(accounts, v), NetChange(movements, v))
    ensures r.Some? ==> r.value in names && Overdrawn(RowOf(accounts, r.value), NetChange(movements, r.value))
  {
    if names == [] then None
    else if Overdrawn(RowOf(accounts, names[0]), NetChange(movements, names[0])) then Some(names[0])
    else
      assert forall v :: v in names <==> v == names[0] || v in names[1..];
      FirstShort(accounts, names[1..], movements)
  }

  /** One UPDATE of a balance, with the table's CHECK constraints; None when it changes no row. */
  function Move(accounts: map<Vpa, Account>, m: Movement): Option<map<Vpa, Account>> {
    var a := RowOf(accounts, m.vpa);
    if m.vpa !in accounts || m.amount == 0 || Overdrawn(a, m.amount) then None
    else Some(accounts[m.vpa := a.(balance := a.balance + m.amount)])
  }

  /** The posting loop: None when some statement of it breaks a CHECK. */
  function MoveAll(accounts: map<Vpa, Account>, movements: seq<Movement>): (r: Option<map<Vpa, Account>>)
    ensures r.Some? ==> r.value.Keys == accounts.Keys
    ensures r.Some? ==> forall v :: v in accounts ==> r.value[v].kind == accounts[v].kind
  {
    if movements == [] then Some(accounts) else
      match MoveAll(accounts, movements[..|movements| - 1])
      case None => None
      case Some(moved) => Move(moved, movements[|movements| - 1])
  }

  function PostingsOf(movements: seq<Movement>, entry: nat): seq<Posting> {
    seq(|movements|, i requires 0 <= i < |movements| => Posting(entry, movements[i].vpa, movements[i].amount))
  }

  /** What post checks before its first write. */
  function Precheck(accounts: map<Vpa, Account>, visible: set<Vpa>, movements: seq<Movement>): Option<PostError> {
    if |movements| < 2 then Some(TooFewPostings)
    else if Total(movements) != 0 then Some(Unbalanced(Total(movements)))
    else
      var names := LockOrder(movements);
      match FirstMissing(names, visible)
      case Some(v) => Some(MissingAccount(v))
      case None =>
        match FirstShort(accounts, names, movements)
        case Some(v) => Some(NotEnough(v, RowOf(accounts, v).balance, -NetChange(movements, v)))
        case None => None
  }

  /**
   * One journal entry and its postings, under the next identity. `visible` holds the accounts in the
   * snapshot of the locking SELECT; `unique` says whether the journal has its UNIQUE constraint.
   */
  function Post(db: Database, unique: bool, visible: set<Vpa>, key: Key, kind: EntryKind,
                movements: seq<Movement>, entry: nat): Result<Database, PostError>
  {
    match Precheck(db.accounts, visible, movements)
    case Some(problem) => Err(problem)
    case None =>
      if unique && KeyTaken(db.entries, key) then Err(DuplicateKey)
      else
        match MoveAll(db.accounts, movements)
        case None => Err(CheckViolation)
        case Some(moved) =>
          Ok(db.(accounts := moved,
                 entries := db.entries[entry := Entry(key, kind)],
                 postings := db.postings + PostingsOf(movements, entry)))
  }

  lemma PrecheckFindsAll(accounts: map<Vpa, Account>, visible: set<Vpa>, movements: seq<Movement>)
    requires visible <= accounts.Keys
    requires Precheck(accounts, visible, movements) == None
    ensures forall i :: 0 <= i < |movements| ==> movements[i].vpa in accounts
    ensures forall i :: 0 <= i < |movements| ==>
              !Overdrawn(accounts[movements[i].vpa], NetChange(movements, movements[i].vpa))
  {
    forall i | 0 <= i < |movements|
      ensures movements[i].vpa in accounts
      ensures !Overdrawn(accounts[movements[i].vpa], NetChange(movements, movements[i].vpa))
    {
      assert Names(movements)[i] in LockOrder(movements);
    }
  }

  function TransferMovements(from: Vpa, to: Vpa, amount: int): seq<Movement> {
    [Movement(from, -amount), Movement(to, amount)]
  }

  function FundMovements(vpa: Vpa, amount: int): seq<Movement> {
    [Movement(HOUSE_VPA, -amount), Movement(vpa, amount)]
  }

  // ---------------------------------------------------------------------------------------------
  // The pre-check against the per-statement CHECK
  // ---------------------------------------------------------------------------------------------

  /** Movement i leaves its account overdrawn, or moves nothing. */
  predicate BreaksCheck(accounts: map<Vpa, Account>, movements: seq<Movement>, i: nat)
    requires i < |movements| && movements[i].vpa in accounts
  {
    movements[i].amount == 0 || Overdrawn(accounts[movements[i].vpa], NetChange(movements[..i + 1], movements[i].vpa))
  }

  /** The loop survives exactly when no prefix of it overdraws the account it has just updated. */
  lemma {:induction false} MoveAllMeaning(accounts: map<Vpa, Account>, movements: seq<Movement>)
    requires forall i :: 0 <= i < |movements| ==> movements[i].vpa in accounts
    ensures MoveAll(accounts, movements).Some? <==>
            forall i :: 0 <= i < |movements| ==> !BreaksCheck(accounts, movements, i)
    ensures MoveAll(accounts, movements).Some? ==>
              var moved := MoveAll(accounts, movements).value;
              forall v :: v in accounts ==>
                moved[v] == accounts[v].(balance := accounts[v].balance + NetChange(movements, v))
  {
    if movements != [] {
      var n := |movements| - 1;
      var front := movements[..n];
      MoveAllMeaning(accounts, front);
      assert movements[..n + 1] == movements;
      forall i | 0 <= i < n
        ensures BreaksCheck(accounts, movements, i) == BreaksCheck(accounts, front, i)
      {
        assert movements[..i + 1] == front[..i + 1];
      }
      if MoveAll(accounts, front).None? {
        var i :| 0 <= i < n && BreaksCheck(accounts, front, i);
        assert BreaksCheck(accounts, movements, i);
      } else {
        assert Move(MoveAll(accounts, front).value, movements[n]).None? <==> BreaksCheck(accounts, movements, n);
      }
    }
  }

  predicate DistinctAccounts(movements: seq<Movement>) {
    forall i, j :: 0 <= i < j < |movements| ==> movements[i].vpa != movements[j].vpa
  }

  lemma {:induction false} NetChangeOfOne(movements: seq<Movement>, i: nat)
    requires i < |movements| && DistinctAccounts(movements)
    ensures NetChange(movements, movements[i].vpa) == movements[i].amount
  {
    var n := |movements| - 1;
    if i < n {
      NetChangeOfOne(movements[..n], i);
    } else {
      NetChangeAbsent(movements[..n], movements[i].vpa);
    }
  }

  lemma {:induction false} NetChangeAbsent(movements: seq<Movement>, v: Vpa)
    requires forall i :: 0 <= i < |movements| ==> movements[i].vpa != v
    ensures NetChange(movements, v) == 0
  {
    if movements != [] {
      NetChangeAbsent(movements[..|movements| - 1], v);
    }
  }

  /** When each account appears once, passing the pre-check means no statement breaks the CHECK. */
  lemma PrecheckCoversTheLoop(accounts: map<Vpa, Account>, visible: set<Vpa>, movements: seq<Movement>)
    requires visible <= accounts.Keys
    requires Precheck(accounts, visible, movements) == None
    requires DistinctAccounts(movements)
    requires forall i :: 0 <= i < |movements| ==> movements[i].amount != 0
    ensures forall i :: 0 <= i < |movements| ==> movements[i].vpa in accounts
    ensures MoveAll(accounts, movements).Some?
  {
    PrecheckFindsAll(accounts, visible, movements);
    MoveAllMeaning(accounts, movements);
    forall i | 0 <= i < |movements|
      ensures !BreaksCheck(accounts, movements, i)
    {
      NetChangeOfOne(movements, i);
      NetChangeOfOne(movements[..i + 1], i);
    }
  }

  lemma OneMovementMore(front: seq<Movement>, m: Movement, v: Vpa)
    ensures Total(front + [m]) == Total(front) + m.amount
    ensures NetChange(front + [m], v) == NetChange(front, v) + if m.vpa == v then m.amount else 0
  {
    assert (front + [m])[..|front|] == front;
  }

  /** The sums of a payment out of an account, one back into it, and one to another. */
  lemma SumsOfThree(out: int, back: int, on: int, v: Vpa)
    ensures var ms := [Movement("a", out), Movement("a", back), Movement("b", on)];
            && Total(ms) == out + back + on
            && NetChange(ms[..1], v) == (if v == "a" then out else 0)
            && NetChange(ms, v) == (if v == "a" then out + back else if v == "b" then on else 0)
  {
    var one, two := [Movement("a", out)], [Movement("a", out), Movement("a", back)];
    OneMovementMore([], Movement("a", out), v);
    OneMovementMore(one, Movement("a", back), v);
    OneMovementMore(two, Movement("b", on), v);
    assert [] + [Movement("a", out)] == one && one + [Movement("a", back)] == two;
    assert two + [Movement("b", on)] == [Movement("a", out), Movement("a", back), Movement("b", on)];
    assert [Movement("a", out), Movement("a", back), Movement("b", on)][..1] == one;
  }

  /** An account named twice can pass the pre-check and still break the CHECK on the way. */
  lemma PrecheckCanMissTheCheck()
    ensures var accounts := map["a" := Account(Customer, 50), "b" := Account(Customer, 0)];
            var movements := [Movement("a", -100), Movement("a", 60), Movement("b", 40)];
            Precheck(accounts, {"a", "b"}, movements) == None && MoveAll(accounts, movements) == None
  {
    hide Total, NetChange;
    var accounts := map["a" := Account(Customer, 50), "b" := Account(Customer, 0)];
    var movements := [Movement("a", -100), Movement("a", 60), Movement("b", 40)];
    SumsOfThree(-100, 60, 40, "a");
    SumsOfThree(-100, 60, 40, "b");
    assert Names(movements) == ["a", "a", "b"];
    MoveAllMeaning(accounts, movements);
    assert BreaksCheck(accounts, movements, 0);
  }

  /**
   * Exactly when post fails with a broken CHECK: the pre-check passed, the key was free, and some
   * prefix of the movements overdraws an account or some movement is of nothing.
   */
  lemma WhenACheckBreaks(db: Database, unique: bool, visible: set<Vpa>, key: Key, kind: EntryKind,
                         movements: seq<Movement>, entry: nat)
    requires visible <= db.accounts.Keys
    ensures Post(db, unique, visible, key, kind, movements, entry) == Err(CheckViolation) <==>
            && Precheck(db.accounts, visible, movements) == None
            && !(unique && KeyTaken(db.entries, key))
            && exists i ::
                 0 <= i < |movements| && movements[i].vpa in db.accounts && BreaksCheck(db.accounts, movements, i)
  {
    if Precheck(db.accounts, visible, movements) == None {
      PrecheckFindsAll(db.accounts, visible, movements);
      MoveAllMeaning(db.accounts, movements);
    }
  }

  // ---------------------------------------------------------------------------------------------
  // A transfer between two parties
  // ---------------------------------------------------------------------------------------------

  function FirstLocked(from: Vpa, to: Vpa): Vpa {
    if Text.Less(from, to) then from else to
  }

  function SecondLocked(from: Vpa, to: Vpa): Vpa {
    if Text.Less(from, to) then to else from
  }

  lemma LockOrderOfTwo(from: Vpa, to: Vpa, amount: int)
    requires from != to
    ensures LockOrder(TransferMovements(from, to, amount)) == [FirstLocked(from, to), SecondLocked(from, to)]
  {
    assert Names(TransferMovements(from, to, amount)) == [from, to];
    assert Text.SortedUnique([from, to]) == Text.Insert(Text.SortedUnique([to]), from) by {
      assert [from, to][1..] == [to];
    }
    assert Text.SortedUnique([to]) == Text.Insert([], to) by {
      assert [to][1..] == [];
    }
    Text.LessTotal(from, to);
    if Text.Less(from, to) {
      assert Text.Insert([to], from) == [from] + [to];
    } else {
      assert [to][1..] == [] && Text.Insert([], from) == [from];
      assert Text.Insert([to], from) == [to] + [from];
    }
  }

  lemma SumsOfTransfer(from: Vpa, to: Vpa, amount: int)
    requires from != to
    ensures var ms := TransferMovements(from, to, amount);
            Total(ms) == 0 && NetChange(ms, from) == -amount && NetChange(ms, to) == amount
  {
    var ms := TransferMovements(from, to, amount);
    assert ms[..1] == [Movement(from, -amount)] && ms[..1][..0] == [];
    assert Total(ms[..1]) == -amount;
    assert NetChange(ms[..1], from) == -amount && NetChange(ms[..1], to) == 0;
  }

  function Changed(account: Account, change: int): Account {
    account.(balance := account.balance + change)
  }

  function Paid(accounts: map<Vpa, Account>, from: Vpa, to: Vpa, amount: int): map<Vpa, Account> {
    accounts[from := Changed(RowOf(accounts, from), -amount)][to := Changed(RowOf(accounts, to), amount)]
  }

  function TransferPostings(from: Vpa, to: Vpa, amount: int, entry: nat): seq<Posting> {
    [Posting(entry, from, -amount), Posting(entry, to, amount)]
  }

  /** All that a transfer can end in, and exactly when. */
  function TransferResult(db: Database, unique: bool, visible: set<Vpa>, key: Key, from: Vpa, to: Vpa, amount: int,
                          entry: nat)
    : Result<Database, PostError>
  {
    if FirstLocked(from, to) !in visible then Err(MissingAccount(FirstLocked(from, to)))
    else if SecondLocked(from, to) !in visible then Err(MissingAccount(SecondLocked(from, to)))
    else if Overdrawn(RowOf(db.accounts, from), -amount) then
      Err(NotEnough(from, RowOf(db.accounts, from).balance, amount))
    else if unique && KeyTaken(db.entries, key) then Err(DuplicateKey)
    else Ok(db.(accounts := Paid(db.accounts, from, to, amount),
                entries := db.entries[entry := Entry(key, PaymentEntry)],
                postings := db.postings + TransferPostings(from, to, amount, entry)))
  }

  /**
   * Between two different parties, where no customer is in debt, a transfer never meets a broken CHECK
   * and only the payer can be short.
   */
  lemma TransferMeaning(db: Database, unique: bool, visible: set<Vpa>, key: Key, from: Vpa, to: Vpa, amount: int,
                        entry: nat)
    requires visible <= db.accounts.Keys && from != to && amount > 0
    requires to in visible ==> !Overdrawn(db.accounts[to], 0)
    ensures Post(db, unique, visible, key, PaymentEntry, TransferMovements(from, to, amount), entry)
            == TransferResult(db, unique, visible, key, from, to, amount, entry)
  {
    var ms := TransferMovements(from, to, amount);
    LockOrderOfTwo(from, to, amount);
    SumsOfTransfer(from, to, amount);
    var first, second := FirstLocked(from, to), SecondLocked(from, to);
    var names := [first, second];
    assert names[1..] == [second] && [second][1..] == [];
    if first in visible && second in visible {
      assert FirstShort(db.accounts, names, ms) == if Overdrawn(db.accounts[from], -amount) then Some(from) else None;
      if !Overdrawn(db.accounts[from], -amount) {
        TransferLoop(db.accounts, from, to, amount);
        assert PostingsOf(ms, entry) == TransferPostings(from, to, amount, entry);
      }
    }
  }

  lemma TransferLoop(accounts: map<Vpa, Account>, from: Vpa, to: Vpa, amount: int)
    requires from in accounts && to in accounts && from != to && amount > 0
    requires !Overdrawn(accounts[from], -amount) && !Overdrawn(accounts[to], 0)
    ensures MoveAll(accounts, TransferMovements(from, to, amount)) == Some(Paid(accounts, from, to, amount))
  {
    var ms := TransferMovements(from, to, amount);
    assert ms[..1] == [Movement(from, -amount)] && ms[..1][..0] == [];
    assert MoveAll(accounts, ms[..1][..0]) == Some(accounts);
    assert MoveAll(accounts, ms[..1]) == Move(accounts, Movement(from, -amount));
  }

  // ---------------------------------------------------------------------------------------------
  // The invariants of the books
  // ---------------------------------------------------------------------------------------------

  function PostingTotal(postings: seq<Posting>): int {
    if postings == [] then 0 else PostingTotal(postings[..|postings| - 1]) + postings[|postings| - 1].amount
  }

  function AccountSum(postings: seq<Posting>, vpa: Vpa): int {
    if postings == [] then 0 else
      var last := postings[|postings| - 1];
      AccountSum(postings[..|postings| - 1], vpa) + if last.vpa == vpa then last.amount else 0
  }

  function EntrySum(postings: seq<Posting>, entry: nat): int {
    if postings == [] then 0 else
      var last := postings[|postings| - 1];
      EntrySum(postings[..|postings| - 1], entry) + if last.entry == entry then last.amount else 0
  }

  ghost predicate BooksBalance(db: Database) {
    && PostingTotal(db.postings) == 0
    && (forall e :: e in db.entries ==> EntrySum(db.postings, e) == 0)
    && (forall v :: v in db.accounts ==> db.accounts[v].balance == AccountSum(db.postings, v))
    && (forall v :: v in db.accounts && db.accounts[v].kind == Customer ==> db.accounts[v].balance >= 0)
    && (forall i :: 0 <= i < |db.postings| ==>
          db.postings[i].vpa in db.accounts && db.postings[i].entry in db.entries && db.postings[i].amount != 0)
  }

  lemma {:induction false} SumsOfAppended(ps: seq<Posting>, movements: seq<Movement>, entry: nat, v: Vpa, e: nat)
    ensures PostingTotal(ps + PostingsOf(movements, entry)) == PostingTotal(ps) + Total(movements)
    ensures AccountSum(ps + PostingsOf(movements, entry), v) == AccountSum(ps, v) + NetChange(movements, v)
    ensures EntrySum(ps + PostingsOf(movements, entry), e) == EntrySum(ps, e) + if e == entry then Total(movements)
              else 0
  {
    if movements == [] {
      assert ps + PostingsOf(movements, entry) == ps;
    } else {
      var n := |movements| - 1;
      SumsOfAppended(ps, movements[..n], entry, v, e);
      var all := ps + PostingsOf(movements, entry);
      assert all[..|all| - 1] == ps + PostingsOf(movements[..n], entry);
    }
  }

  lemma {:induction false} UnusedEntrySumsToZero(ps: seq<Posting>, e: nat)
    requires forall i :: 0 <= i < |ps| ==> ps[i].entry != e
    ensures EntrySum(ps, e) == 0
  {
    if ps != [] {
      UnusedEntrySumsToZero(ps[..|ps| - 1], e);
    }
  }

  /** After a successful post every balance is still the sum of its postings, and no customer is overdrawn. */
  lemma PostKeepsBalances(db: Database, unique: bool, visible: set<Vpa>, key: Key, kind: EntryKind,
                          movements: seq<Movement>, entry: nat, v: Vpa)
    requires BooksBalance(db) && visible <= db.accounts.Keys
    requires Post(db, unique, visible, key, kind, movements, entry).Ok?
    requires v in Post(db, unique, visible, key, kind, movements, entry).value.accounts
    ensures var db' := Post(db, unique, visible, key, kind, movements, entry).value;
            && db'.accounts[v].balance == AccountSum(db'.postings, v)
            && (db'.accounts[v].kind == Customer ==> db'.accounts[v].balance >= 0)
  {
    PrecheckFindsAll(db.accounts, visible, movements);
    MoveAllMeaning(db.accounts, movements);
    SumsOfAppended(db.postings, movements, entry, v, entry);
    if exists i :: 0 <= i < |movements| && movements[i].vpa == v {
      var i :| 0 <= i < |movements| && movements[i].vpa == v;
      assert !Overdrawn(db.accounts[v], NetChange(movements, v));
    } else {
      NetChangeAbsent(movements, v);
    }
  }

  /** What an entry adds is about known accounts and moves something. */
  lemma AddedPostings(accounts: map<Vpa, Account>, movements: seq<Movement>, entry: nat)
    requires forall i :: 0 <= i < |movements| ==> movements[i].vpa in accounts
    requires MoveAll(accounts, movements).Some?
    ensures forall i :: 0 <= i < |movements| ==>
              && PostingsOf(movements, entry)[i].vpa in accounts && PostingsOf(movements, entry)[i].entry == entry
              && PostingsOf(movements, entry)[i].amount != 0
  {
    MoveAllMeaning(accounts, movements);
    hide MoveAll;
    forall i | 0 <= i < |movements|
      ensures movements[i].amount != 0
    {
      assert !BreaksCheck(accounts, movements, i);
    }
  }

  /** A balanced entry leaves the sums of all entries at zero. */
  lemma SumsStayZero(ps: seq<Posting>, entries: set<nat>, movements: seq<Movement>, entry: nat)
    requires Total(movements) == 0 && entry !in entries
    requires forall i :: 0 <= i < |ps| ==> ps[i].entry in entries
    requires forall e :: e in entries ==> EntrySum(ps, e) == 0
    ensures PostingTotal(ps + PostingsOf(movements, entry)) == PostingTotal(ps)
    ensures forall e :: e in entries || e == entry ==> EntrySum(ps + PostingsOf(movements, entry), e) == 0
  {
    hide Total, PostingsOf, PostingTotal, EntrySum, AccountSum;
    SumsOfAppended(ps, movements, entry, "", entry);
    UnusedEntrySumsToZero(ps, entry);
    forall e: nat | e in entries || e == entry
      ensures EntrySum(ps + PostingsOf(movements, entry), e) == 0
    {
      SumsOfAppended(ps, movements, entry, "", e);
    }
  }

  /** Every successful post keeps the books. */
  lemma PostKeepsBooks(db: Database, unique: bool, visible: set<Vpa>, key: Key, kind: EntryKind,
                       movements: seq<Movement>, entry: nat)
    requires BooksBalance(db) && visible <= db.accounts.Keys && entry !in db.entries
    requires Post(db, unique, visible, key, kind, movements, entry).Ok?
    ensures BooksBalance(Post(db, unique, visible, key, kind, movements, entry).value)
  {
    hide Precheck, NetChange, Overdrawn, Total, PostingTotal, EntrySum, AccountSum;
    var db' := Post(db, unique, visible, key, kind, movements, entry).value;
    PrecheckFindsAll(db.accounts, visible, movements);
    AddedPostings(db.accounts, movements, entry);
    PostedIsBalanced(db, unique, visible, key, kind, movements, entry);
    SumsStayZero(db.postings, db.entries.Keys, movements, entry);
    forall v | v in db'.accounts
      ensures db'.accounts[v].balance == AccountSum(db'.postings, v)
      ensures db'.accounts[v].kind == Customer ==> db'.accounts[v].balance >= 0
    {
      PostKeepsBalances(db, unique, visible, key, kind, movements, entry, v);
    }
    hide PostingsOf, MoveAll;
  }

  lemma PostedIsBalanced(db: Database, unique: bool, visible: set<Vpa>, key: Key, kind: EntryKind,
                         movements: seq<Movement>, entry: nat)
    requires Post(db, unique, visible, key, kind, movements, entry).Ok?
    ensures Total(movements) == 0
  {
    hide Total, MoveAll, NetChange, Overdrawn;
  }

  // ---------------------------------------------------------------------------------------------
  // What checkInvariants reports
  // ---------------------------------------------------------------------------------------------

  datatype Report = Report(holds: bool, postingSum: int, drifts: set<Vpa>)

  /** Sums all postings, and compares each balance with the sum of its own. */
  function CheckInvariants(db: Database): Report {
    var sum := PostingTotal(db.postings);
    var drifts := set v | v in db.accounts && db.accounts[v].balance != AccountSum(db.postings, v);
    Report(sum == 0 && drifts == {}, sum, drifts)
  }

  ghost function SumOver(vs: set<Vpa>, f: Vpa -> int): int {
    if vs == {} then 0 else
      var v :| v in vs;
      f(v) + SumOver(vs - {v}, f)
  }

  lemma {:induction false} SumOverPick(vs: set<Vpa>, f: Vpa -> int, v: Vpa)
    requires v in vs
    ensures SumOver(vs, f) == f(v) + SumOver(vs - {v}, f)
    decreases vs
  {
    var first :| first in vs && SumOver(vs, f) == f(first) + SumOver(vs - {first}, f);
    if first != v {
      SumOverPick(vs - {first}, f, v);
      SumOverPick(vs - {v}, f, first);
      assert vs - {first} - {v} == vs - {v} - {first};
    }
  }

  lemma {:induction false} SumOverEqual(vs: set<Vpa>, f: Vpa -> int, g: Vpa -> int)
    requires forall v :: v in vs ==> f(v) == g(v)
    ensures SumOver(vs, f) == SumOver(vs, g)
    decreases vs
  {
    if vs != {} {
      var v :| v in vs;
      SumOverPick(vs, f, v);
      SumOverPick(vs, g, v);
      SumOverEqual(vs - {v}, f, g);
    }
  }

  lemma {:induction false} AccountSumsAddUp(vs: set<Vpa>, ps: seq<Posting>)
    requires forall i :: 0 <= i < |ps| ==> ps[i].vpa in vs
    ensures SumOver(vs, v => AccountSum(ps, v)) == PostingTotal(ps)
    decreases |ps|
  {
    if ps == [] {
      AllZero(vs, v => AccountSum(ps, v));
    } else {
      var front, last := ps[..|ps| - 1], ps[|ps| - 1];
      AccountSumsAddUp(vs, front);
      var f, g := (v: Vpa) => AccountSum(ps, v), (v: Vpa) => AccountSum(front, v);
      SumOverPick(vs, f, last.vpa);
      SumOverPick(vs, g, last.vpa);
      SumOverEqual(vs - {last.vpa}, f, g);
    }
  }

  lemma {:induction false} AllZero(vs: set<Vpa>, f: Vpa -> int)
    requires forall v :: v in vs ==> f(v) == 0
    ensures SumOver(vs, f) == 0
    decreases vs
  {
    if vs != {} {
      var v :| v in vs;
      SumOverPick(vs, f, v);
      AllZero(vs - {v}, f);
    }
  }

  /** When the books balance the report holds, and all balances together are zero. */
  lemma BalancedBooksPassTheCheck(db: Database)
    requires BooksBalance(db)
    ensures CheckInvariants(db) == Report(true, 0, {})
    ensures SumOver(db.accounts.Keys, v => if v in db.accounts then db.accounts[v].balance else 0) == 0
    ensures HOUSE_VPA in db.accounts ==>
              SumOver(db.accounts.Keys - {HOUSE_VPA}, v => if v in db.accounts then db.accounts[v].balance else 0)
              == -db.accounts[HOUSE_VPA].balance
  {
    var balance := (v: Vpa) => if v in db.accounts then db.accounts[v].balance else 0;
    AccountSumsAddUp(db.accounts.Keys, db.postings);
    SumOverEqual(db.accounts.Keys, balance, v => AccountSum(db.postings, v));
    if HOUSE_VPA in db.accounts {
      SumOverPick(db.accounts.Keys, balance, HOUSE_VPA);
    }
  }

  /** A balance edited behind the ledger is reported, whichever account it is. */
  lemma EditedBalanceIsReported(db: Database, v: Vpa, balance: int)
    requires BooksBalance(db) && v in db.accounts && balance != db.accounts[v].balance
    ensures var edited := db.(accounts := db.accounts[v := db.accounts[v].(balance := balance)]);
            CheckInvariants(edited) == Report(false, 0, {v})
  {
    var edited := db.(accounts := db.accounts[v := db.accounts[v].(balance := balance)]);
    assert forall u :: u in CheckInvariants(edited).drifts <==> u == v;
    assert CheckInvariants(edited).drifts == {v};
  }

  // ---------------------------------------------------------------------------------------------
  // The statements themselves
  // ---------------------------------------------------------------------------------------------

  lemma {:induction false} BrokenPrefixBreaksAll(accounts: map<Vpa, Account>, movements: seq<Movement>, n: nat)
    requires n <= |movements| && forall i :: 0 <= i < |movements| ==> movements[i].vpa in accounts
    requires MoveAll(accounts, movements[..n]).None?
    ensures MoveAll(accounts, movements).None?
    decreases |movements|
  {
    if n == |movements| {
      assert movements[..n] == movements;
    } else {
      var front := movements[..|movements| - 1];
      assert front[..n] == movements[..n];
      BrokenPrefixBreaksAll(accounts, front, n);
    }
  }

  /** The loop over the locked rows. */
  method FindShort(accounts: map<Vpa, Account>, names: seq<Vpa>, movements: seq<Movement>) returns (r: Option<Vpa>)
    requires forall v :: v in names ==> v in accounts
    ensures r == FirstShort(accounts, names, movements)
  {
    var i := 0;
    while i < |names|
      invariant 0 <= i <= |names|
      invariant FirstShort(accounts, names, movements) == FirstShort(accounts, names[i..], movements)
    {
      var v := names[i];
      assert names[i..][0] == v && names[i..][1..] == names[i + 1..];
      if accounts[v].kind != House && accounts[v].balance + NetChange(movements, v) < 0 {
        return Some(v);
      }
      i := i + 1;
    }
    return None;
  }

  /** Locks the accounts in order and refuses the entry before anything is written. */
  method CheckMovements(store: Store, movements: seq<Movement>) returns (problem: Option<PostError>)
    ensures problem == Precheck(store.accounts, store.accounts.Keys, movements)
  {
    if |movements| < 2 {
      return Some(TooFewPostings);
    }
    if Total(movements) != 0 {
      return Some(Unbalanced(Total(movements)));
    }
    var names := LockOrder(movements);
    var missing := FirstMissing(names, store.accounts.Keys);
    if missing.Some? {
      return Some(MissingAccount(missing.value));
    }
    var short := FindShort(store.accounts, names, movements);
    if short.Some? {
      var v := short.value;
      return Some(NotEnough(v, store.accounts[v].balance, -NetChange(movements, v)));
    }
    return None;
  }

  /** The posting loop; false when a CHECK stops it. */
  method WritePostings(store: Store, movements: seq<Movement>, entry: nat) returns (ok: bool)
    requires forall i :: 0 <= i < |movements| ==> movements[i].vpa in store.accounts
    modifies store`accounts, store`postings
    ensures ok <==> MoveAll(old(store.accounts), movements).Some?
    ensures ok ==> MoveAll(old(store.accounts), movements) == Some(store.accounts)
    ensures ok ==> store.postings == old(store.postings) + PostingsOf(movements, entry)
  {
    var i := 0;
    while i < |movements|
      invariant 0 <= i <= |movements|
      invariant MoveAll(old(store.accounts), movements[..i]) == Some(store.accounts)
      invariant store.postings == old(store.postings) + PostingsOf(movements[..i], entry)
    {
      var m := movements[i];
      assert movements[..i + 1][..i] == movements[..i];
      assert PostingsOf(movements[..i + 1], entry)
          == PostingsOf(movements[..i], entry) + [Posting(entry, m.vpa, m.amount)];
      if m.amount == 0 || Overdrawn(store.accounts[m.vpa], m.amount) {
        BrokenPrefixBreaksAll(old(store.accounts), movements, i + 1);
        return false;
      }
      store.postings := store.postings + [Posting(entry, m.vpa, m.amount)];
      store.accounts := store.accounts[m.vpa :=
          store.accounts[m.vpa].(balance := store.accounts[m.vpa].balance + m.amount)];
      i := i + 1;
    }
    assert movements[..i] == movements;
    return true;
  }

  /** Locks, checks, then writes an entry; the tables are the caller's to commit. */
  method PostEntry(store: Store, unique: bool, key: Key, kind: EntryKind, movements: seq<Movement>)
    returns (r: Result<nat, PostError>)
    requires forall e :: e in store.entries ==> e < store.nextEntry
    modifies store`accounts, store`entries, store`postings, store`nextEntry
    ensures var result := Post(old(store.Tables()), unique, old(store.accounts.Keys), key, kind, movements,
              old(store.nextEntry));
            match r
            case Ok(entry) => entry == old(store.nextEntry) && result == Ok(store.Tables())
            case Err(problem) =>
              result == Err(problem) && (problem != CheckViolation ==> store.Tables() == old(store.Tables()))
    ensures old(store.nextEntry) <= store.nextEntry
    ensures forall e :: e in store.entries ==> e < store.nextEntry
  {
    hide Precheck, MoveAll;
    var problem := CheckMovements(store, movements);
    if problem.Some? {
      return Err(problem.value);
    }
    PrecheckFindsAll(store.accounts, store.accounts.Keys, movements);
    var entry := store.nextEntry;
    store.nextEntry := entry + 1;
    if unique && KeyTaken(store.entries, key) {
      return Err(DuplicateKey);
    }
    store.entries := store.entries[entry := Entry(key, kind)];
    var ok := WritePostings(store, movements, entry);
    return if ok then Ok(entry) else Err(CheckViolation);
  }
}
