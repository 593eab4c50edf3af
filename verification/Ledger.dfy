/** The ledger of pending stepwise logins, operated on under the daemon's mutex. */
module Ledger {
  import opened Options
  import opened SessionTables

  const MAX_STEPS := 40

  /** `slot` names the holder of the executor connection, compared by identity. */
  datatype Entry = Entry(
    key: BrowserKey, exclusive: bool, persistCookies: bool, startedAt: nat,
    lastActive: nat, inFlight: nat, steps: nat, totpEntered: nat, slot: nat)

  datatype Ticket = Ticket(key: BrowserKey, exclusive: bool, persistCookies: bool, startedAt: nat, slot: nat)

  datatype Claim = NotFound | Expired(entry: Entry) | Exhausted(entry: Entry) | Ready(ticket: Ticket)

  /** The ledger as a value. */
  datatype Book = Book(entries: map<string, Entry>, idle: nat, max: nat)

  /** The entries that one sweep removes: by deadline, by owner, or by namespace (all of them for `None`). */
  datatype Which = PastDeadline(now: nat) | OfPrincipal(principal: string) | InNamespace(ns: Option<string>)

  predicate IsExpired(b: Book, entry: Entry, now: nat) {
    now >= entry.startedAt + b.max || (entry.inFlight == 0 && now >= entry.lastActive + b.idle)
  }

  predicate IsCurrent(b: Book, login: string, slot: nat) {
    login in b.entries && b.entries[login].slot == slot
  }

  function TicketOf(entry: Entry): Ticket {
    Ticket(entry.key, entry.exclusive, entry.persistCookies, entry.startedAt, entry.slot)
  }

  function ClaimResult(b: Book, login: string, principal: string, now: nat): Claim {
    if login !in b.entries || b.entries[login].key.principal != principal then NotFound
    else
      var entry := b.entries[login];
      if IsExpired(b, entry, now) then Expired(entry)
      else if entry.steps + 1 > MAX_STEPS then Exhausted(entry.(steps := entry.steps + 1))
      else Ready(TicketOf(entry))
  }

  function Claimed(b: Book, login: string, principal: string, now: nat): Book {
    match ClaimResult(b, login, principal, now)
    case NotFound => b
    case Expired(_) => Without(b, login)
    case Exhausted(_) => Without(b, login)
    case Ready(_) =>
      var entry := b.entries[login];
      With(b, login, entry.(steps := entry.steps + 1, inFlight := entry.inFlight + 1))
  }

  function With(b: Book, login: string, entry: Entry): Book {
    b.(entries := b.entries[login := entry])
  }

  function Without(b: Book, login: string): Book {
    b.(entries := b.entries - {login})
  }

  function Released(b: Book, login: string, slot: nat, now: nat): Book {
    if !IsCurrent(b, login, slot) then b
    else
      var entry := b.entries[login];
      With(b, login, entry.(inFlight := if entry.inFlight == 0 then 0 else entry.inFlight - 1, lastActive := now))
  }

  function Noted(b: Book, login: string, slot: nat): Book {
    if !IsCurrent(b, login, slot) then b
    else With(b, login, b.entries[login].(totpEntered := b.entries[login].totpEntered + 1))
  }

  function RemovedCurrent(b: Book, login: string, slot: nat): Book {
    if IsCurrent(b, login, slot) then Without(b, login) else b
  }

  predicate Chosen(b: Book, which: Which, entry: Entry) {
    match which
    case PastDeadline(now) => IsExpired(b, entry, now)
    case OfPrincipal(principal) => entry.key.principal == principal
    case InNamespace(ns) => ns.None? || ns.value == entry.key.ns
  }

  function Selected(b: Book, which: Which): set<string> {
    set login | login in b.entries && Chosen(b, which, b.entries[login])
  }

  /** `taken` lists the entries of `logins`, each exactly once, whatever the order. */
  predicate Lists(taken: seq<(string, Entry)>, entries: map<string, Entry>, logins: set<string>) {
    && (forall i | 0 <= i < |taken| :: taken[i].0 in logins && taken[i].0 in entries &&
          taken[i].1 == entries[taken[i].0])
    && (forall i, j | 0 <= i < j < |taken| :: taken[i].0 != taken[j].0)
    && (forall login | login in logins :: exists i :: 0 <= i < |taken| && taken[i].0 == login)
  }

  lemma {:induction false} ListedLength(taken: seq<(string, Entry)>, entries: map<string, Entry>, logins: set<string>)
    requires Lists(taken, entries, logins)
    ensures |taken| == |logins|
    decreases |taken|
  {
    if taken == [] {
      assert logins == {};
    } else {
      var n := |taken| - 1;
      var rest := logins - {taken[n].0};
      forall login | login in rest ensures exists i :: 0 <= i < n && taken[..n][i].0 == login {
        var i :| 0 <= i < |taken| && taken[i].0 == login;
        assert taken[..n][i].0 == login;
      }
      ListedLength(taken[..n], entries, rest);
    }
  }

  class Ledger {
    var entries: map<string, Entry>
    const idle: nat
    const max: nat

    constructor (idle: nat, max: nat)
      ensures View() == Book(map[], idle, max)
    {
      entries := map[];
      this.idle := idle;
      this.max := max;
    }

    function View(): Book
      reads this
    {
      Book(entries, idle, max)
    }

    method Insert(login: string, entry: Entry)
      modifies this
      ensures View() == With(old(View()), login, entry)
    {
      entries := entries[login := entry];
    }

    method TryClaim(login: string, principal: string, now: nat) returns (claim: Claim)
      modifies this
      ensures claim == ClaimResult(old(View()), login, principal, now)
      ensures View() == Claimed(old(View()), login, principal, now)
      ensures !claim.NotFound? <==> login in old(entries) && old(entries)[login].key.principal == principal
      ensures claim.NotFound? ==> entries == old(entries)
      ensures !claim.NotFound? ==>
        var e := old(entries)[login];
        var late := now >= e.startedAt + max || (e.inFlight == 0 && now >= e.lastActive + idle);
        && (claim.Expired? <==> late) && (claim.Ready? <==> !late && e.steps < 40)
        && (!claim.Ready? ==>
              claim.entry.slot == e.slot && claim.entry.key == e.key && entries == old(entries) - {login})
        && (claim.Ready? ==>
              && claim.ticket == Ticket(e.key, e.exclusive, e.persistCookies, e.startedAt, e.slot)
              && entries == old(entries)[login := e.(steps := e.steps + 1, inFlight := e.inFlight + 1)])
    {
      if login !in entries {
        return NotFound;
      }
      var entry := entries[login];
      if entry.key.principal != principal {
        return NotFound;
      }
      if IsExpired(Book(entries, idle, max), entry, now) {
        entries := entries - {login};
        return Expired(entry);
      }
      entry := entry.(steps := entry.steps + 1);
      if entry.steps > MAX_STEPS {
        entries := entries - {login};
        return Exhausted(entry);
      }
      entry := entry.(inFlight := entry.inFlight + 1);
      entries := entries[login := entry];
      claim := Ready(TicketOf(entry));
    }

    method Release(login: string, slot: nat, now: nat)
      modifies this
      ensures View() == Released(old(View()), login, slot, now)
      ensures entries ==
        if login in old(entries) && old(entries)[login].slot == slot then
          var e := old(entries)[login];
          old(entries)[login := e.(inFlight := if e.inFlight == 0 then 0 else e.inFlight - 1, lastActive := now)]
        else old(entries)
    {
      if login in entries && entries[login].slot == slot {
        var entry := entries[login];
        var inFlight := if entry.inFlight > 0 then entry.inFlight - 1 else 0;
        entries := entries[login := entry.(inFlight := inFlight, lastActive := now)];
      }
    }

    method NoteTotp(login: string, slot: nat)
      modifies this
      ensures View() == Noted(old(View()), login, slot)
      ensures entries ==
        if login in old(entries) && old(entries)[login].slot == slot then
          old(entries)[login := old(entries)[login].(totpEntered := old(entries)[login].totpEntered + 1)]
        else old(entries)
    {
      if login in entries && entries[login].slot == slot {
        entries := entries[login := entries[login].(totpEntered := entries[login].totpEntered + 1)];
      }
    }

    method RemoveCurrent(login: string, slot: nat) returns (removed: Option<Entry>)
      modifies this
      ensures View() == RemovedCurrent(old(View()), login, slot)
      ensures removed.Some? <==> login in old(entries) && old(entries)[login].slot == slot
      ensures removed.Some? ==> removed.value == old(entries)[login] && entries == old(entries) - {login}
      ensures removed.None? ==> entries == old(entries)
    {
      if !IsCurrent(Book(entries, idle, max), login, slot) {
        return None;
      }
      removed := Some(entries[login]);
      entries := entries - {login};
    }

    method TakeOwned(login: string, principal: string) returns (taken: Option<Entry>)
      modifies this
      ensures taken.Some? <==> login in old(entries) && old(entries)[login].key.principal == principal
      ensures taken.Some? ==> taken.value == old(entries)[login]
      ensures View() == if taken.Some? then Without(old(View()), login) else old(View())
      ensures entries == if taken.Some? then old(entries) - {login} else old(entries)
    {
      if login !in entries || entries[login].key.principal != principal {
        return None;
      }
      taken := Some(entries[login]);
      entries := entries - {login};
    }

    /** The ids of the chosen entries, in the map's own order. */
    method Collect(which: Which) returns (logins: seq<string>)
      ensures forall login :: login in logins <==> login in Selected(View(), which)
      ensures forall i, j | 0 <= i < j < |logins| :: logins[i] != logins[j]
    {
      logins := [];
      var todo := entries.Keys;
      while todo != {}
        invariant todo <= entries.Keys
        invariant forall login | login in logins :: login in Selected(View(), which) && login !in todo
        invariant forall login | login in Selected(View(), which) :: login in logins || login in todo
        invariant forall i, j | 0 <= i < j < |logins| :: logins[i] != logins[j]
        decreases |todo|
      {
        var login :| login in todo;
        todo := todo - {login};
        if Chosen(Book(entries, idle, max), which, entries[login]) {
          logins := logins + [login];
        }
      }
    }

    method TakeIds(logins: seq<string>) returns (taken: seq<(string, Entry)>)
      requires forall login | login in logins :: login in entries
      requires forall i, j | 0 <= i < j < |logins| :: logins[i] != logins[j]
      modifies this
      ensures entries == old(entries) - (set login | login in logins)
      ensures Lists(taken, old(entries), set login | login in logins)
    {
      taken := [];
      ghost var before := entries;
      for i := 0 to |logins|
        invariant entries == before - (set login | login in logins[..i])
        invariant |taken| == i
        invariant forall k | 0 <= k < i :: taken[k].0 == logins[k] && taken[k].1 == before[logins[k]]
      {
        assert logins[i] !in logins[..i];
        assert logins[..i + 1] == logins[..i] + [logins[i]];
        taken := taken + [(logins[i], entries[logins[i]])];
        entries := entries - {logins[i]};
      }
      assert logins[..|logins|] == logins;
      forall login | login in logins ensures exists i :: 0 <= i < |taken| && taken[i].0 == login {
        var i :| 0 <= i < |logins| && logins[i] == login;
        assert taken[i].0 == login;
      }
    }

    /** `take_expired`, `take_principal` and `take_namespace`. */
    method Take(which: Which) returns (taken: seq<(string, Entry)>)
      modifies this
      ensures View() == Swept(old(View()), Selected(old(View()), which))
      ensures Lists(taken, old(entries), Selected(old(View()), which))
      ensures forall login :: login in entries <==>
        && login in old(entries)
        && var e := old(entries)[login];
           match which
           case PastDeadline(now) => now < e.startedAt + max && (e.inFlight > 0 || now < e.lastActive + idle)
           case OfPrincipal(principal) => e.key.principal != principal
           case InNamespace(ns) => ns.Some? && ns.value != e.key.ns
      ensures forall login | login in entries :: entries[login] == old(entries)[login]
      ensures forall login | login in old(entries) && login !in entries :: (login, old(entries)[login]) in taken
      ensures |taken| == |old(entries)| - |entries|
    {
      var logins := Collect(which);
      assert (set login | login in logins) == Selected(View(), which);
      ghost var before := entries;
      taken := TakeIds(logins);
      forall login | login in before && login !in entries ensures (login, before[login]) in taken {
        var i :| 0 <= i < |taken| && taken[i].0 == login;
        assert taken[i] == (login, before[login]);
      }
      ListedLength(taken, before, Selected(old(View()), which));
      assert before.Keys == entries.Keys + Selected(old(View()), which);
    }
  }

  function Swept(b: Book, logins: set<string>): Book {
    b.(entries := b.entries - logins)
  }
}
