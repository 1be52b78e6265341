/** The invites step: adding and removing emails in the store's invite list, the
    guard on the Finish button and the separators drawn between entries. */
module InvitesView {
  import opened OnboardingStore

  /** The list the add handler commits: the entered email after every existing entry. */
  function Appended(invites: seq<string>, email: string): (r: seq<string>)
    ensures |r| == |invites| + 1 && r[..|invites|] == invites && r[|invites|] == email
    ensures multiset(r) == multiset(invites) + multiset{email}
  {
    invites + [email]
  }

  /** The list the trash button of entry `index` commits: the slices before and after it, joined. */
  function WithoutAt(invites: seq<string>, index: int): (r: seq<string>)
    requires 0 <= index < |invites|
    ensures |r| == |invites| - 1
    ensures forall j :: 0 <= j < index ==> r[j] == invites[j]
    ensures forall j :: index <= j < |r| ==> r[j] == invites[j + 1]
    ensures multiset(r) == multiset(invites) - multiset{invites[index]}
  {
    assert invites == invites[..index] + [invites[index]] + invites[index + 1..];
    invites[..index] + invites[index + 1..]
  }

  /** Adding never merges duplicates: an email already present is counted once more. */
  lemma AddingKeepsDuplicates(invites: seq<string>, email: string)
    requires email in invites
    ensures multiset(Appended(invites, email))[email] >= 2
  {
  }

  /** Every entry other than the removed one's occurrence is still in the list. */
  lemma RemovalKeepsOthers(invites: seq<string>, index: int, other: string)
    requires 0 <= index < |invites| && other in invites && other != invites[index]
    ensures other in WithoutAt(invites, index)
  {
  }

  /** Removing the entry that was just added gives back the list as it was. */
  lemma RemoveUndoesAdd(invites: seq<string>, email: string)
    ensures WithoutAt(Appended(invites, email), |invites|) == invites
  {
  }

  /** `!invites.length`: Finish is disabled exactly when nobody has been invited. */
  function FinishDisabled(invites: seq<string>): (r: bool)
    ensures r <==> invites == []
  {
    |invites| == 0
  }

  /** Whether a separator follows entry `index` when the list is rendered. */
  function SeparatorAfter(invites: seq<string>, index: int): bool {
    index < |invites| - 1
  }

  /** The separator flag of each rendered entry, in list order. */
  function Separators(invites: seq<string>): (r: seq<bool>)
    ensures |r| == |invites|
  {
    seq(|invites|, i requires 0 <= i < |invites| => SeparatorAfter(invites, i))
  }

  /** How many flags are set. */
  function CountSet(flags: seq<bool>): nat {
    if flags == [] then 0 else CountSet(flags[..|flags| - 1]) + (if flags[|flags| - 1] then 1 else 0)
  }

  lemma {:induction false} CountAllSet(flags: seq<bool>)
    requires forall i :: 0 <= i < |flags| ==> flags[i]
    ensures CountSet(flags) == |flags|
  {
    if flags != [] {
      CountAllSet(flags[..|flags| - 1]);
    }
  }

  /** Every entry but the last is followed by a separator, so `n` entries show `n - 1`. */
  lemma {:induction false} SeparatorsBetweenEntries(invites: seq<string>)
    ensures forall i :: 0 <= i < |invites| ==> (Separators(invites)[i] <==> i != |invites| - 1)
    ensures CountSet(Separators(invites)) == if invites == [] then 0 else |invites| - 1
  {
    var flags := Separators(invites);
    if invites != [] {
      assert flags[..|flags| - 1] == seq(|invites| - 1, _ => true);
      CountAllSet(flags[..|flags| - 1]);
    }
  }

  /** The add handler of a render that saw the invite list as `rendered`: it commits that
      list with the email appended, whatever the store holds by then, and changes nothing else. */
  method OnSubmit(store: Store, rendered: seq<string>, email: string)
    modifies store
    ensures store.Snapshot() == old(store.Snapshot()).(invites := Appended(rendered, email))
  {
    store.SetInvites(rendered + [email]);
  }

  /** The trash button of entry `index`, bound at a render that saw the list as `rendered`:
      it commits that list without the entry and changes nothing else. */
  method RemoveInvite(store: Store, rendered: seq<string>, index: int)
    requires 0 <= index < |rendered|
    modifies store
    ensures store.Snapshot() == old(store.Snapshot()).(invites := WithoutAt(rendered, index))
  {
    store.SetInvites(rendered[..index] + rendered[index + 1..]);
  }

  /** Two adds handled in the same render both extend the rendered list, so the
      second one's email replaces the first one's. */
  method TwoAddsInOneRender(store: Store, first: string, second: string)
    modifies store
    ensures store.Snapshot() == old(store.Snapshot()).(invites := Appended(old(store.invites), second))
  {
    var rendered := store.invites;
    OnSubmit(store, rendered, first);
    OnSubmit(store, rendered, second);
  }
}
