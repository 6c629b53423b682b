/// Ownership of the demo objects by the browser session: the companies
/// posted to `CompaniesCollectionView` and the objects saved by a
/// `DemoModelFormView` are marked with the session key in `created_by`.
module Ownership {
  import opened Values

  /// The session key a view works with: the request's own, or the key
  /// `cycle_key` created when the request had none (the new key is a
  /// parameter).
  function SessionKey(current: Option<string>, cycled: string): string {
    if current.Some? && current.value != "" then current.value else cycled
  }

  /// The posted entry belongs to the session: its company mapping has
  /// `created_by` set to the key.
  predicate OwnedBy(entry: Value, key: string) {
    && entry.Dict? && "company" in entry.entries
    && entry.entries["company"].Dict?
    && Get(entry.entries["company"].entries, "created_by") == Str(key)
  }

  /// `after` differs from `before` at most in the `created_by` of its company
  /// mapping.
  predicate SameApartFromOwner(before: Value, after: Value) {
    && before.Dict? && after.Dict?
    && after.entries.Keys == before.entries.Keys
    && (forall k :: k in before.entries && k != "company" ==> after.entries[k] == before.entries[k])
    && "company" in before.entries
    && before.entries["company"].Dict? && after.entries["company"].Dict?
    && after.entries["company"].entries - {"created_by"} == before.entries["company"].entries - {"created_by"}
  }

  /// Stamping one entry either yields the stamped entry or the exception the
  /// item access raises.
  datatype Stamped = Stamped(entry: Value) | Failed(exc: Exc)

  /// `data['company']['created_by'] = key` for one posted entry: a `KeyError`
  /// when the entry has no company, a `TypeError` when the entry or its
  /// company is not a mapping.
  function StampEntry(entry: Value, key: string): (r: Stamped)
    ensures r.Stamped? <==> entry.Dict? && "company" in entry.entries && entry.entries["company"].Dict?
    ensures r.Failed? ==> (r.exc == KeyError <==> entry.Dict? && "company" !in entry.entries)
    ensures r.Failed? ==> r.exc == KeyError || r.exc == TypeError
  {
    if !entry.Dict? then Failed(TypeError)
    else if "company" !in entry.entries then Failed(KeyError)
    else
      var company := entry.entries["company"];
      if !company.Dict? then Failed(TypeError)
      else Stamped(Dict(entry.entries["company" := Dict(company.entries["created_by" := Str(key)])]))
  }

  /// A stamped entry belongs to the session, and nothing but its company's
  /// `created_by` changed.
  lemma StampEntryOwns(entry: Value, key: string)
    requires StampEntry(entry, key).Stamped?
    ensures OwnedBy(StampEntry(entry, key).entry, key)
    ensures SameApartFromOwner(entry, StampEntry(entry, key).entry)
  {
  }

  /// The posted data after the stamping loop, and the exception that ended
  /// it early, if any.
  datatype Stamping = Stamping(data: seq<Value>, error: Option<Exc>)

  /// The stamping loop over the posted entries, in order: it stops at the
  /// first entry it cannot stamp, leaving that entry and the following ones
  /// as they were.
  function StampAll(data: seq<Value>, key: string): (r: Stamping)
    ensures |r.data| == |data|
  {
    if data == [] then Stamping([], None)
    else
      match StampEntry(data[0], key)
      case Failed(e) => Stamping(data, Some(e))
      case Stamped(v) =>
        var rest := StampAll(data[1..], key);
        Stamping([v] + rest.data, rest.error)
  }

  /// The entries before position `i` stamped, the others as posted.
  function StampedUpTo(data: seq<Value>, key: string, i: nat): (r: seq<Value>)
    requires forall j :: 0 <= j < i && j < |data| ==> StampEntry(data[j], key).Stamped?
    ensures |r| == |data|
  {
    seq(|data|, j requires 0 <= j < |data| => if j < i then StampEntry(data[j], key).entry else data[j])
  }

  /// The loop that stamps the first `i` entries and then stops at entry `i`
  /// (or at the end) computes `StampAll`.
  lemma {:induction false} StampAllStopsAt(data: seq<Value>, key: string, i: nat)
    requires i <= |data|
    requires forall j :: 0 <= j < i ==> StampEntry(data[j], key).Stamped?
    requires i < |data| ==> StampEntry(data[i], key).Failed?
    ensures StampAll(data, key)
              == Stamping(StampedUpTo(data, key, i), if i == |data| then None else Some(StampEntry(data[i], key).exc))
  {
    if i == 0 {
      assert StampedUpTo(data, key, 0) == data;
    } else {
      var rest := data[1..];
      assert forall j :: 0 <= j < i - 1 ==> rest[j] == data[j + 1];
      StampAllStopsAt(rest, key, i - 1);
      var whole, tail := StampedUpTo(data, key, i), StampedUpTo(rest, key, i - 1);
      forall j | 1 <= j < |data| ensures whole[j] == tail[j - 1] {
        assert rest[j - 1] == data[j];
      }
      assert whole == [StampEntry(data[0], key).entry] + tail;
    }
  }

  /// The stamping succeeds exactly when every entry is a mapping with a
  /// company mapping; then every entry belongs to the session and nothing but
  /// the company's `created_by` changed.
  lemma {:induction false} StampAllOwnsEveryEntry(data: seq<Value>, key: string)
    ensures StampAll(data, key).error.None? <==> forall j :: 0 <= j < |data| ==> StampEntry(data[j], key).Stamped?
    ensures StampAll(data, key).error.None? ==>
              forall j :: 0 <= j < |data| ==>
                OwnedBy(StampAll(data, key).data[j], key) && SameApartFromOwner(data[j], StampAll(data, key).data[j])
  {
    if data != [] {
      var rest := data[1..];
      StampAllOwnsEveryEntry(rest, key);
      assert forall j :: 1 <= j < |data| ==> data[j] == rest[j - 1];
      if StampEntry(data[0], key).Stamped? {
        StampEntryOwns(data[0], key);
      }
    }
  }

  /// Stamping posted data a second time with the same key changes nothing
  /// more: the same entries, and the same exception.
  lemma {:induction false} StampAllIdempotent(data: seq<Value>, key: string)
    ensures StampAll(StampAll(data, key).data, key) == StampAll(data, key)
  {
    if data != [] {
      match StampEntry(data[0], key)
      case Failed(e) =>
      case Stamped(v) =>
        StampAllIdempotent(data[1..], key);
        var once := StampAll(data, key).data;
        assert once[0] == v && once[1..] == StampAll(data[1..], key).data;
        assert StampEntry(v, key) == Stamped(v) by {
          var c := v.entries["company"];
          assert c.entries["created_by" := Str(key)] == c.entries;
          assert v.entries["company" := Dict(c.entries)] == v.entries;
        }
    }
  }

  /// The request data of a form collection view, as posted.
  class PostedCollection {
    var data: seq<Value>

    constructor (data: seq<Value>)
      ensures this.data == data
    {
      this.data := data;
    }

    /// `CompaniesCollectionView.get_form_collection` on a POST: every posted
    /// company is assigned to the current session, updating the entries in
    /// place; the exception of an entry that cannot be stamped escapes.
    method StampCreatedBy(session: Option<string>, cycled: string) returns (error: Option<Exc>)
      modifies this
      ensures Stamping(data, error) == StampAll(old(data), SessionKey(session, cycled))
    {
      var key := SessionKey(session, cycled);
      ghost var posted := data;
      var i := 0;
      while i < |data|
        invariant 0 <= i <= |data| == |posted|
        invariant forall j :: 0 <= j < i ==> StampEntry(posted[j], key).Stamped?
        invariant data == StampedUpTo(posted, key, i)
      {
        var entry := data[i];
        assert entry == posted[i];
        if !entry.Dict? {
          StampAllStopsAt(posted, key, i);
          return Some(TypeError);
        }
        if "company" !in entry.entries {
          StampAllStopsAt(posted, key, i);
          return Some(KeyError);
        }
        var company := entry.entries["company"];
        if !company.Dict? {
          StampAllStopsAt(posted, key, i);
          return Some(TypeError);
        }
        data := data[i := Dict(entry.entries["company" := Dict(company.entries["created_by" := Str(key)])])];
        i := i + 1;
      }
      StampAllStopsAt(posted, key, i);
      error := None;
    }
  }

  /// A model instance with an owner: `created_by` as held in memory, the
  /// value last written to the database, and the number of saves.
  class OwnedInstance {
    var createdBy: Option<string>
    var storedCreatedBy: Option<string>
    var saves: nat

    constructor (createdBy: Option<string>)
      ensures this.createdBy == createdBy && storedCreatedBy == None && saves == 0
    {
      this.createdBy := createdBy;
      storedCreatedBy := None;
      saves := 0;
    }

    /// `instance.save()`: the instance's `created_by` is written.
    method Save()
      modifies this
      ensures createdBy == old(createdBy) && storedCreatedBy == createdBy && saves == old(saves) + 1
    {
      storedCreatedBy := createdBy;
      saves := saves + 1;
    }
  }

  /// `CompaniesCollectionView.form_collection_valid`: the company instance of
  /// every valid holder is given the request's session key.
  method StampValidHolders(companies: seq<OwnedInstance>, session: Option<string>)
    modifies set i | 0 <= i < |companies| :: companies[i]
    ensures forall i :: 0 <= i < |companies| ==> companies[i].createdBy == session
    ensures forall i :: 0 <= i < |companies| ==>
              companies[i].storedCreatedBy == old(companies[i].storedCreatedBy) && companies[i].saves == old(companies[i].saves)
  {
    for k := 0 to |companies|
      invariant forall i :: 0 <= i < k ==> companies[i].createdBy == session
      invariant forall i :: 0 <= i < |companies| ==>
                  companies[i].storedCreatedBy == old(companies[i].storedCreatedBy) && companies[i].saves == old(companies[i].saves)
    {
      companies[k].createdBy := session;
    }
  }

  /// `DemoModelFormView.form_valid`: the form saves the instance; then the
  /// instance is given the session key (cycling a missing one) and saved a
  /// second time only when its owner differed.
  method FormValid(instance: OwnedInstance, session: Option<string>, cycled: string) returns (key: string, resaved: bool)
    modifies instance
    ensures key == SessionKey(session, cycled)
    ensures resaved <==> old(instance.createdBy) != Some(key)
    ensures instance.createdBy == Some(key) && instance.storedCreatedBy == Some(key)
    ensures instance.saves == old(instance.saves) + (if resaved then 2 else 1)
  {
    instance.Save();
    key := SessionKey(session, cycled);
    resaved := false;
    if instance.createdBy != Some(key) {
      instance.createdBy := Some(key);
      instance.Save();
      resaved := true;
    }
  }
}
