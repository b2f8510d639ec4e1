/** src/context/AuthContext.jsx: the signed-in user and the saved picks of
    the browser session. The provider's state is a class whose methods are
    the `setState` updaters; the clock reading and `Date.now()` are
    parameters. */
module AuthContext {
  import opened Common
  import opened JsText

  /** `p.id`, None when the property is undefined. */
  function IdOf(p: Record): Option<Json>
  {
    if "id" in p then Some(p["id"]) else None
  }

  /** `picks.some(p => p.id === id)` */
  function HasId(picks: seq<Record>, id: Option<Json>): bool
  {
    |picks| > 0 && (IdOf(picks[0]) == id || HasId(picks[1..], id))
  }

  predicate SavedAt(picks: seq<Record>, id: Option<Json>, i: int)
  {
    0 <= i < |picks| && IdOf(picks[i]) == id
  }

  /** isPickSaved(id) holds exactly when some saved pick carries that id. */
  lemma {:induction false} HasIdIff(picks: seq<Record>, id: Option<Json>)
    ensures HasId(picks, id) <==> exists i :: SavedAt(picks, id, i)
  {
    if |picks| > 0 {
      HasIdIff(picks[1..], id);
      if IdOf(picks[0]) == id {
        assert SavedAt(picks, id, 0);
      }
      if exists i :: SavedAt(picks[1..], id, i) {
        var i :| SavedAt(picks[1..], id, i);
        assert SavedAt(picks, id, i + 1);
      }
      if exists i :: SavedAt(picks, id, i) {
        var i :| SavedAt(picks, id, i);
        if i > 0 {
          assert SavedAt(picks[1..], id, i - 1);
        } else {
          assert IdOf(picks[0]) == id;
        }
      }
    }
  }

  lemma {:induction false} HasIdConcat(a: seq<Record>, b: seq<Record>, id: Option<Json>)
    ensures HasId(a + b, id) <==> HasId(a, id) || HasId(b, id)
  {
    if |a| > 0 {
      assert (a + b)[1..] == a[1..] + b;
      HasIdConcat(a[1..], b, id);
    } else {
      assert a + b == b;
    }
  }

  /** `picks.filter(p => p.id !== id)` */
  function Without(picks: seq<Record>, id: Option<Json>): (r: seq<Record>)
    ensures forall p :: p in r <==> p in picks && IdOf(p) != id
    ensures |r| <= |picks|
  {
    if |picks| == 0 then []
    else if IdOf(picks[0]) != id then [picks[0]] + Without(picks[1..], id)
    else Without(picks[1..], id)
  }

  /** The filter keeps the other picks in their order: it distributes over
      concatenation and leaves a list without the id as it is. */
  lemma {:induction false} WithoutConcat(a: seq<Record>, b: seq<Record>, id: Option<Json>)
    ensures Without(a + b, id) == Without(a, id) + Without(b, id)
  {
    if |a| > 0 {
      assert (a + b)[0] == a[0] && (a + b)[1..] == a[1..] + b;
      WithoutConcat(a[1..], b, id);
      assert Without(a + b, id) == (if IdOf(a[0]) != id then [a[0]] else []) + Without(a[1..] + b, id);
    } else {
      assert a + b == b;
    }
  }

  lemma {:induction false} WithoutAbsent(picks: seq<Record>, id: Option<Json>)
    requires !HasId(picks, id)
    ensures Without(picks, id) == picks
  {
    if |picks| > 0 {
      WithoutAbsent(picks[1..], id);
    }
  }

  lemma {:induction false} HasIdWithout(picks: seq<Record>, id: Option<Json>, other: Option<Json>)
    ensures HasId(Without(picks, id), other) <==> HasId(picks, other) && other != id
  {
    if |picks| > 0 {
      HasIdWithout(picks[1..], id, other);
    }
  }

  /** `{ ...pick, savedAt }` */
  function Stamp(pick: Record, now: string): (r: Record)
    ensures IdOf(r) == IdOf(pick)
    ensures "savedAt" in r && r["savedAt"] == JStr(now)
  {
    pick["savedAt" := JStr(now)]
  }

  /** The savePick updater: drop every pick with this id when one is already
      saved, otherwise append the pick stamped with the save time. */
  function Toggled(prev: seq<Record>, pick: Record, now: string): seq<Record>
  {
    if HasId(prev, IdOf(pick)) then Without(prev, IdOf(pick)) else prev + [Stamp(pick, now)]
  }

  /** A pick that is not saved yet is appended at the end, stamped. */
  lemma ToggleAppends(prev: seq<Record>, pick: Record, now: string)
    requires !HasId(prev, IdOf(pick))
    ensures var r := Toggled(prev, pick, now);
            |r| == |prev| + 1 && r[..|prev|] == prev && r[|prev|] == Stamp(pick, now)
    ensures HasId(Toggled(prev, pick, now), IdOf(pick))
  {
    HasIdConcat(prev, [Stamp(pick, now)], IdOf(pick));
  }

  /** A saved pick is removed with every other pick of its id, and nothing
      else is removed. */
  lemma ToggleRemoves(prev: seq<Record>, pick: Record, now: string)
    requires HasId(prev, IdOf(pick))
    ensures Toggled(prev, pick, now) == Without(prev, IdOf(pick))
    ensures !HasId(Toggled(prev, pick, now), IdOf(pick))
    ensures forall id :: id != IdOf(pick) ==> (HasId(Toggled(prev, pick, now), id) <==> HasId(prev, id))
  {
    forall id
      ensures HasId(Without(prev, IdOf(pick)), id) <==> HasId(prev, id) && id != IdOf(pick)
    {
      HasIdWithout(prev, IdOf(pick), id);
    }
  }

  /** Saving the same pick twice restores the saved ids; when it was not
      saved before, the list itself comes back. */
  lemma {:induction false} ToggleTwice(prev: seq<Record>, pick: Record, t1: string, t2: string)
    ensures forall id :: HasId(Toggled(Toggled(prev, pick, t1), pick, t2), id) <==> HasId(prev, id)
    ensures !HasId(prev, IdOf(pick)) ==> Toggled(Toggled(prev, pick, t1), pick, t2) == prev
  {
    var x := IdOf(pick);
    var once := Toggled(prev, pick, t1);
    if HasId(prev, x) {
      ToggleRemoves(prev, pick, t1);
      ToggleAppends(once, pick, t2);
      var twice := Toggled(once, pick, t2);
      assert twice == once + [Stamp(pick, t2)];
      forall id
        ensures HasId(twice, id) <==> HasId(prev, id)
      {
        HasIdConcat(once, [Stamp(pick, t2)], id);
        HasIdWithout(prev, x, id);
      }
    } else {
      ToggleAppends(prev, pick, t1);
      assert once == prev + [Stamp(pick, t1)];
      WithoutConcat(prev, [Stamp(pick, t1)], x);
      WithoutAbsent(prev, x);
      assert Without([Stamp(pick, t1)], x) == [];
      assert Toggled(once, pick, t2) == prev;
    }
  }

  /** The updateUser updater, `{ ...prev, ...updates }`, or nothing when no
      user is signed in. */
  function UpdatedUser(user: Option<Record>, updates: Record): (r: Option<Record>)
    ensures user.None? <==> r.None?
    ensures r.Some? ==> forall k :: k in r.value <==> k in user.value || k in updates
    ensures r.Some? ==> forall k :: k in updates ==> r.value[k] == updates[k]
    ensures r.Some? ==> forall k :: k in user.value && k !in updates ==> r.value[k] == user.value[k]
  {
    if user.None? then None else Some(user.value + updates)
  }

  /** An update applied twice is the update applied once. */
  lemma UpdateIdempotent(user: Option<Record>, updates: Record)
    ensures UpdatedUser(UpdatedUser(user, updates), updates) == UpdatedUser(user, updates)
  {
    if user.Some? {
      var once := UpdatedUser(user, updates).value;
      assert once + updates == once;
    }
  }

  /** The email as stored: trimmed and lower-cased. */
  function NormalEmail(email: string): (r: string)
    ensures |r| > 0 ==> !IsSpace(r[0]) && !IsSpace(r[|r| - 1])
    ensures forall i :: 0 <= i < |r| ==> !('A' <= r[i] <= 'Z')
  {
    ToLower(Trim(email))
  }

  /** The account the sign-up form creates; None where `name.trim()[0]` is
      undefined, so that reading its `toUpperCase` throws. */
  function NewUser(name: string, email: string, stamp: string, joinedAt: string): (r: Option<Record>)
    ensures r.None? <==> Trim(name) == []
    ensures r.Some? ==> r.value.Keys == {"id", "name", "email", "joinedAt", "avatar", "plan", "streak", "totalPicks", "points"}
  {
    var n := Trim(name);
    if |n| == 0 then None
    else Some(map[
      "id" := JStr("u_" + stamp),
      "name" := JStr(n),
      "email" := JStr(NormalEmail(email)),
      "joinedAt" := JStr(joinedAt),
      "avatar" := JStr([UpperChar(n[0])]),
      "plan" := JStr("FREE"),
      "streak" := JNum(0.0),
      "totalPicks" := JNum(0.0),
      "points" := JNum(0.0)])
  }

  /** What sign-up stores: the trimmed name and the upper-cased initial of
      the name. */
  lemma NewUserFields(name: string, email: string, stamp: string, joinedAt: string)
    requires NewUser(name, email, stamp, joinedAt).Some?
    ensures var u := NewUser(name, email, stamp, joinedAt).value;
            u["name"] == JStr(Trim(name)) && u["avatar"] == JStr([UpperChar(Trim(name)[0])])
  {
    var n := Trim(name);
    assert |n| > 0;
    var u := NewUser(name, email, stamp, joinedAt).value;
    assert u == map[
      "id" := JStr("u_" + stamp),
      "name" := JStr(n),
      "email" := JStr(NormalEmail(email)),
      "joinedAt" := JStr(joinedAt),
      "avatar" := JStr([UpperChar(n[0])]),
      "plan" := JStr("FREE"),
      "streak" := JNum(0.0),
      "totalPicks" := JNum(0.0),
      "points" := JNum(0.0)];
  }

  /** Sign-up stores the email trimmed and lower-cased. */
  lemma NewUserEmail(name: string, email: string, stamp: string, joinedAt: string)
    requires NewUser(name, email, stamp, joinedAt).Some?
    ensures NewUser(name, email, stamp, joinedAt).value["email"] == JStr(ToLower(Trim(email)))
  {
  }

  /** A new account is on the free plan with zero counters. */
  lemma NewUserDefaults(name: string, email: string, stamp: string, joinedAt: string)
    requires NewUser(name, email, stamp, joinedAt).Some?
    ensures var u := NewUser(name, email, stamp, joinedAt).value;
            && u["plan"] == JStr("FREE")
            && u["streak"] == JNum(0.0) && u["totalPicks"] == JNum(0.0) && u["points"] == JNum(0.0)
  {
  }

  lemma ToLowerTwice(s: string)
    ensures ToLower(ToLower(s)) == ToLower(s)
  {
  }

  /** Signing up again with the stored name and email stores them
      unchanged: the normalisation is idempotent. */
  lemma NewUserStable(name: string, email: string, stamp: string, joinedAt: string)
    requires NewUser(name, email, stamp, joinedAt).Some?
    ensures var u := NewUser(name, email, stamp, joinedAt).value;
            NewUser(Trim(name), NormalEmail(email), stamp, joinedAt) == Some(u)
  {
    TrimFixed(Trim(name));
    TrimFixed(NormalEmail(email));
    ToLowerTwice(Trim(email));
  }

  /** The provider's state: `user` (None when signed out), the sign-up
      modal flag and `savedPicks`. */
  class AuthProvider {
    var user: Option<Record>
    var authModal: bool
    var savedPicks: seq<Record>

    constructor ()
      ensures user.None? && !authModal && savedPicks == []
    {
      user := None;
      authModal := false;
      savedPicks := [];
    }

    method SignUp(name: string, email: string, stamp: string, joinedAt: string) returns (u: Option<Record>)
      modifies this
      ensures u == NewUser(name, email, stamp, joinedAt)
      ensures u.Some? ==> user == u && !authModal
      ensures u.None? ==> user == old(user) && authModal == old(authModal)
      ensures savedPicks == old(savedPicks)
    {
      u := NewUser(name, email, stamp, joinedAt);
      if u.Some? {
        user := u;
        authModal := false;
      }
    }

    method LogOut()
      modifies this
      ensures user.None?
      ensures authModal == old(authModal) && savedPicks == old(savedPicks)
    {
      user := None;
    }

    method UpdateUser(updates: Record)
      modifies this
      ensures user == UpdatedUser(old(user), updates)
      ensures authModal == old(authModal) && savedPicks == old(savedPicks)
    {
      user := UpdatedUser(user, updates);
    }

    method SavePick(pick: Record, now: string)
      modifies this
      ensures savedPicks == Toggled(old(savedPicks), pick, now)
      ensures user == old(user) && authModal == old(authModal)
    {
      savedPicks := Toggled(savedPicks, pick, now);
    }

    /** isPickSaved */
    function IsPickSaved(id: Option<Json>): (r: bool)
      reads this
      ensures r <==> exists i :: SavedAt(savedPicks, id, i)
    {
      HasIdIff(savedPicks, id);
      HasId(savedPicks, id)
    }
  }
}
