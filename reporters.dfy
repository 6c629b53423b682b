/// The partial submission of `IssueCollectionView`: a dialog posts either a
/// new reporter or changes to an existing one, and the view answers with the
/// saved reporter's id.
module Reporters {
  import opened Values

  /// A reporter's field values by field name.
  type Fields = map<string, Value>

  /// The reporters in the database and the id the next new one receives.
  datatype ReporterTable = ReporterTable(rows: map<int, Fields>, nextId: int)

  /// Every stored id is positive and below the next id to hand out.
  predicate Valid(t: ReporterTable) {
    t.nextId > 0 && forall id :: id in t.rows ==> 0 < id < t.nextId
  }

  /// What the view answers: the generic collection handling, the reporter's
  /// id as JSON, a bad request, or an escaping exception.
  datatype Response = Delegated | ReporterId(id: int) | BadRequest | Raised(exc: Exc)

  datatype Outcome = Outcome(response: Response, table: ReporterTable)

  /// `construct_instance(holder, instance)`: the holder's cleaned data
  /// overwrites the instance's fields, except the automatic `id`.
  function Construct(instance: Fields, cleaned: Fields): (r: Fields)
    ensures r.Keys == instance.Keys + (cleaned.Keys - {"id"})
    ensures forall k :: k in cleaned && k != "id" ==> r[k] == cleaned[k]
    ensures forall k :: k in instance && (k !in cleaned || k == "id") ==> r[k] == instance[k]
  {
    instance + (cleaned - {"id"})
  }

  datatype Lookup = Row(id: int) | Missing(exc: Exc)

  /// `Reporter.objects.get(id=cleaned_data['id'])`: a `KeyError` without an
  /// id, `DoesNotExist` for `None` or an id no reporter has, and the
  /// coercion's `ValueError` or `TypeError` otherwise.
  function FindReporter(t: ReporterTable, cleaned: Fields): (r: Lookup)
    ensures r.Row? <==> "id" in cleaned && CoerceId(cleaned["id"]).IdOk? && CoerceId(cleaned["id"]).n in t.rows
    ensures r.Row? ==> r.id in t.rows && CoerceId(cleaned["id"]) == IdOk(r.id)
    ensures r.Missing? && r.exc == KeyError <==> "id" !in cleaned
    ensures r.Missing? ==> r.exc in {KeyError, DoesNotExist, ValueError, TypeError}
    ensures "id" in cleaned && cleaned["id"].Null? ==> r == Missing(DoesNotExist)
    ensures "id" in cleaned && CoerceId(cleaned["id"]).IdOk? && CoerceId(cleaned["id"]).n !in t.rows ==> r == Missing(DoesNotExist)
    ensures "id" in cleaned && !cleaned["id"].Null? && CoerceId(cleaned["id"]).IdError? ==> r == Missing(CoerceId(cleaned["id"]).exc)
  {
    if "id" !in cleaned then Missing(KeyError)
    else if cleaned["id"].Null? then Missing(DoesNotExist)
    else
      match CoerceId(cleaned["id"])
      case IdError(e) => Missing(e)
      case IdOk(n) => if n in t.rows then Row(n) else Missing(DoesNotExist)
  }

  /// `IssueCollectionView.form_collection_valid`. A partial submission
  /// creates the reporter of a valid `create_reporter` holder, else updates
  /// the one named by a valid `edit_reporter` holder, else is a bad request;
  /// a complete submission goes to the generic handling. `validHolders` maps
  /// each valid holder's name to its cleaned data (a form is always truthy).
  function FormCollectionValid(partial: bool, validHolders: map<string, Fields>, t: ReporterTable): (r: Outcome)
    ensures r.response.Delegated? <==> !partial
    ensures r.response.BadRequest? <==> partial && "create_reporter" !in validHolders && "edit_reporter" !in validHolders
    ensures r.response.Raised? || r.response.Delegated? || r.response.BadRequest? ==> r.table == t
    ensures r.response.ReporterId? ==> r.response.id in r.table.rows
    ensures partial && "create_reporter" !in validHolders && "edit_reporter" in validHolders
            && FindReporter(t, validHolders["edit_reporter"]).Missing? ==>
              r == Outcome(Raised(FindReporter(t, validHolders["edit_reporter"]).exc), t)
  {
    if !partial then Outcome(Delegated, t)
    else if "create_reporter" in validHolders then
      var reporter := Construct(map[], validHolders["create_reporter"]);
      Outcome(ReporterId(t.nextId), ReporterTable(t.rows[t.nextId := reporter], t.nextId + 1))
    else if "edit_reporter" in validHolders then
      var cleaned := validHolders["edit_reporter"];
      match FindReporter(t, cleaned)
      case Missing(e) => Outcome(Raised(e), t)
      case Row(id) => Outcome(ReporterId(id), t.(rows := t.rows[id := Construct(t.rows[id], cleaned)]))
    else
      Outcome(BadRequest, t)
  }

  /// A new reporter takes priority: when both holders are valid, the edited
  /// reporter is left alone and a fresh one is stored with the posted fields.
  lemma CreateTakesPriority(validHolders: map<string, Fields>, t: ReporterTable)
    requires Valid(t)
    requires "create_reporter" in validHolders
    ensures var r := FormCollectionValid(true, validHolders, t);
      && r.response == ReporterId(t.nextId)
      && t.nextId !in t.rows
      && r.table.rows.Keys == t.rows.Keys + {t.nextId}
      && (forall id :: id in t.rows ==> r.table.rows[id] == t.rows[id])
      && r.table.rows[t.nextId] == Construct(map[], validHolders["create_reporter"])
      && r.table.rows[t.nextId].Keys == validHolders["create_reporter"].Keys - {"id"}
  {
  }

  /// Without either holder nothing is saved and the answer is a bad request.
  lemma MissingDataSavesNothing(validHolders: map<string, Fields>, t: ReporterTable)
    requires "create_reporter" !in validHolders && "edit_reporter" !in validHolders
    ensures FormCollectionValid(true, validHolders, t) == Outcome(BadRequest, t)
  {
  }

  /// Editing changes only the named reporter: its posted fields are replaced,
  /// its id and the other reporters stay.
  lemma EditChangesOnlyThatReporter(validHolders: map<string, Fields>, t: ReporterTable)
    requires "create_reporter" !in validHolders && "edit_reporter" in validHolders
    requires FindReporter(t, validHolders["edit_reporter"]).Row?
    ensures var id := FindReporter(t, validHolders["edit_reporter"]).id;
      var r := FormCollectionValid(true, validHolders, t);
      && r.response == ReporterId(id)
      && r.table.nextId == t.nextId
      && r.table.rows.Keys == t.rows.Keys
      && (forall other :: other in t.rows && other != id ==> r.table.rows[other] == t.rows[other])
      && r.table.rows[id] == Construct(t.rows[id], validHolders["edit_reporter"])
  {
  }

  /// Editing a reporter that does not exist saves nothing and raises.
  lemma EditOfUnknownReporterRaises(validHolders: map<string, Fields>, t: ReporterTable, n: int)
    requires "create_reporter" !in validHolders && "edit_reporter" in validHolders
    requires "id" in validHolders["edit_reporter"] && validHolders["edit_reporter"]["id"] == Int(n)
    requires n !in t.rows
    ensures FormCollectionValid(true, validHolders, t) == Outcome(Raised(DoesNotExist), t)
  {
  }

  /// The answer never loses track of the table: ids stay positive and below
  /// the next id, and the id sent back belongs to the saved reporter.
  lemma FormCollectionValidKeepsTableValid(partial: bool, validHolders: map<string, Fields>, t: ReporterTable)
    requires Valid(t)
    ensures Valid(FormCollectionValid(partial, validHolders, t).table)
    ensures t.rows.Keys <= FormCollectionValid(partial, validHolders, t).table.rows.Keys
  {
  }
}
