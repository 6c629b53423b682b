# django-formset test application: company collections and demo-view helpers

This project models two parts of the django-formset test application.

- **Company collections** (`testapp/forms/company.py`). A company holds
  departments and a department holds teams. When a nested form collection is
  posted, each level's `retrieve_instance` decides which model instance the
  submitted mapping stands for:
  - nothing, when the level's key is absent or falsy;
  - the stored object whose `id` matches within the parent's scope;
  - a new, unsaved object carrying the submitted `name` and a link to the parent.

  The team and department resolvers catch `AttributeError`, `DoesNotExist`
  and `ValueError`. The company resolver catches `DoesNotExist` only. The
  model states exactly which exceptions escape. `DepartmentForm` restricts its `sales_team` choices to the
  department's own teams.
- **Demo-view helpers** (`testapp/views.py`):
  - the de-duplicated list of URL path patterns on the index page;
  - the rendering mode taken from a URL name;
  - the layered CSS-class lookup;
  - the docstring text handed to the reStructuredText parser;
  - the renderer assignment over nested holders;
  - the stamping of the session key into `created_by`;
  - the `form_valid` ownership update;
  - the create-or-edit decision for reporters.

Modules, one per file:

| module | file | contents |
|---|---|---|
| `Values` | values.dfy | submitted JSON values, Python truthiness, `dict.get`, `str.isspace`, Django's integer coercion of an `id` |
| `Store` | store.dfy | the database as a map from id to row; `.get(id=…)` with its outcomes |
| `CompanyForms` | company.dfy | the three resolvers, the sales-team choices, `DepartmentForm`, the collection classes |
| `Urls` | urls.dfy | `render_suburls` de-duplication of URL paths, `split('.')`/`'.'.join`, `DemoViewMixin.mode` |
| `CssClasses` | css.dfy | `get_css_classes` |
| `Docstring` | docstring.dfy | `str.splitlines`, un-indentation and assembly of the docstring |
| `HolderRenderers` | holders.dfy | `traverse_holders` over a tree of holders whose leaves are form objects |
| `Ownership` | ownership.dfy | the `created_by` stamping of `CompaniesCollectionView` and `DemoModelFormView.form_valid` |
| `Reporters` | reporters.dfy | `IssueCollectionView.form_collection_valid` |

Exceptions are values of `Values.Exc`. A resolver returns `Escaped(e)` for an
exception it lets through. A docstring or reporter outcome carries `Raised(e)`.

## Model

| member | source | states |
|---|---|---|
| Values.IdArg | testapp/forms/company.py:31 | `data.get('id') or 0` is the submitted id when that is truthy, and the integer 0 exactly when it is not |
| Values.CoerceId | testapp/forms/company.py:31 | integer coercion of the id: an integer is kept, a boolean becomes 1 or 0, a string that parses becomes its value and one that does not is a `ValueError`, `None`, a mapping or a list is a `TypeError` |
| Values.FalsyIdCoercesToZero | testapp/forms/company.py:31 | a missing, `None`, empty or zero id is looked up as key 0 |
| Values.ParseShowInt | testapp/forms/company.py:31 | the decimal text of every integer coerces back to that integer |
| Store.FetchById | testapp/forms/company.py:31-32 | `.get` raises `AttributeError` without a parent and `ValueError` for an unsaved parent, before the id is read; on a usable manager it raises the coercion error, finds exactly the in-scope row with that key, or raises `DoesNotExist` |
| Store.ZeroIsNeverFound | testapp/forms/company.py:31 | key 0 never matches a stored row, so the lookup always raises: `DoesNotExist`, or the error of a missing or unsaved parent |
| CompanyForms.Retrieve | testapp/forms/company.py:28-33 | the lookup-or-construct shared by all three resolvers: nothing for a falsy entry; `AttributeError` escapes for a truthy entry that is not a mapping; for a mapping, the found row is returned as stored, an absorbed exception builds a new object with the submitted name and the parent, and any other exception escapes |
| CompanyForms.RetrieveTeam | testapp/forms/company.py:28-33 | nothing iff the `team` entry is falsy; a stored team belongs to the parent department and has the submitted id; otherwise a new team with the submitted name and the parent; an error escapes iff the entry is not a mapping, or the parent is saved and the id is of the wrong type; for a mapping that error is `TypeError` |
| CompanyForms.RetrieveDepartment | testapp/forms/company.py:63-69 | the same contract with key `department`, scope the company's departments, and link `company` |
| CompanyForms.RetrieveCompany | testapp/forms/company.py:109-114 | global lookup; a new company only for `DoesNotExist` and with no parent; every coercion error escapes |
| CompanyForms.TeamFoundInScope | testapp/forms/company.py:31 | a submitted id matching a team of the parent department returns that stored team |
| CompanyForms.TeamUnderUnsavedDepartmentBuildsNew | testapp/forms/company.py:31-33 | under an unsaved department every submitted team is built new, whatever its id, because the related manager raises `ValueError` first |
| CompanyForms.TeamFailuresBuildNew | testapp/forms/company.py:32-33 | no parent, a non-numeric id and no such team all yield the same new team |
| CompanyForms.TeamFalsyIdBuildsNew | testapp/forms/company.py:31-33 | a falsy id always builds a new team |
| CompanyForms.TeamOfOtherDepartmentNotReturned | testapp/forms/company.py:31-33 | a team of another department is not returned; a new team is built instead |
| CompanyForms.DepartmentFailuresBuildNew | testapp/forms/company.py:66-69 | the department resolver absorbs the same three failures |
| CompanyForms.DepartmentFoundInScope | testapp/forms/company.py:66 | a submitted id matching a department of the parent company returns that stored department |
| CompanyForms.DepartmentUnderUnsavedCompanyBuildsNew | testapp/forms/company.py:66-69 | under an unsaved company every submitted department is built new, whatever its id |
| CompanyForms.CompanyFoundById | testapp/forms/company.py:112 | the id of any stored company returns that stored company |
| CompanyForms.CompanyNonNumericIdEscapes | testapp/forms/company.py:111-113 | a non-numeric company id raises `ValueError` instead of building a company |
| CompanyForms.CompanyNotFoundBuildsNew | testapp/forms/company.py:113-114 | an unknown company id builds a company that carries only the name |
| CompanyForms.NonNumericIdSeparatesResolvers | testapp/forms/company.py:63-69 | the same non-numeric submission builds a new department but makes the company resolver raise |
| CompanyForms.NewDepartmentUnderCompany | testapp/forms/company.py:63-69 | a department posted with a null id under a stored company is built linked to it |
| CompanyForms.StoredDepartmentWithNewTeam | testapp/forms/company.py:28-33 | a stored department resolves to itself, and a new team posted with it is linked to it |
| CompanyForms.SalesTeamChoices | testapp/forms/company.py:51 | the `sales_team` queryset contains only stored teams |
| CompanyForms.SalesTeamChoicesAreDepartmentTeams | testapp/forms/company.py:51 | a team is offered iff its department id equals the given primary key |
| CompanyForms.NewDepartmentHasNoSalesTeamChoices | testapp/forms/company.py:48-51 | without a primary key no team is offered, since every team has a department |
| CompanyForms.SalesTeamChoicesDisjoint | testapp/forms/company.py:51 | two departments never share a choice |
| CompanyForms.SalesTeamChoiceResolvesToStoredTeam | testapp/forms/company.py:28-33 | an offered team, submitted under its department, resolves to that stored team |
| CompanyForms.PkFilter | testapp/forms/company.py:48-51 | the filter is on a null department iff no primary key was passed |
| CompanyForms.DepartmentForm.constructor | testapp/forms/company.py:46-51 | `department_pk` is removed from the keyword arguments and nothing else; the queryset is that department's teams |
| CompanyForms.CollectionsUseTheirResolvers | testapp/forms/company.py:20-114 | the team, department and companies collection classes resolve with their own `retrieve_instance`, and `CompanyCollection` defines none |
| CompanyForms.Department2OverridesOnlyLimits | testapp/forms/company.py:71-74 | the subclass unsets all three sibling limits and keeps the holders, the link and the resolver |
| Urls.FirstIndex | testapp/views.py:85 | the position of the first occurrence of a path |
| Urls.DistinctElements | testapp/views.py:84-85 | the list contains exactly the non-empty paths |
| Urls.DistinctHasNoDuplicates | testapp/views.py:85 | no path is listed twice |
| Urls.FirstOccurrenceOrderPair | testapp/views.py:85 | of two listed paths, the one listed first occurs first among the URL paths |
| Urls.DistinctKeepsFirstOccurrenceOrder | testapp/views.py:85 | paths keep the order of their first occurrence |
| Urls.DistinctUrlPaths | testapp/views.py:84-85 | the filter-and-accumulate loop computes the de-duplicated list: exactly the non-empty paths, no duplicates, in first-occurrence order |
| Urls.SplitDots | testapp/views.py:120 | `split('.')` gives at least one part, and no part contains a dot |
| Urls.JoinSplitDots | testapp/views.py:120 | joining the parts with dots gives the name back |
| Urls.LastPartIsFinalSegment | testapp/views.py:120 | the last part is the longest dot-free suffix of the name |
| Urls.Mode | testapp/views.py:118-120 | a mode exists iff the URL name is non-empty; it is the name's dot-free final segment |
| Urls.ModeExamples | testapp/views.py:118-120 | `complete.native` gives `native`, `address` gives `address`, and no or an empty name gives no mode |
| CssClasses.GetCssClasses | testapp/views.py:122-125 | an unknown framework is a `KeyError`; otherwise the keys are those of `'*'` and of the mode, and the mode's value wins on a shared key |
| CssClasses.NoModeEntriesGivesDefaults | testapp/views.py:122-125 | without entries for the mode the result is exactly the `'*'` entries |
| CssClasses.NoDefaultsGivesModeEntries | testapp/views.py:122-125 | without `'*'` entries the result is exactly the mode's entries |
| CssClasses.HorizontalBootstrapClasses | testapp/views.py:122-125 | the merge is shallow: a per-field mapping under `'*'` is replaced whole by the mode's string |
| Docstring.SplitLines | testapp/views.py:146-147 | `splitlines` gives lines free of line boundaries, at least one for non-empty text |
| Docstring.JoinSplitLines | testapp/views.py:146-152 | for text with only `\n` breaks and no final break, joining the lines with `\n` restores it |
| Docstring.MinIndent | testapp/views.py:146 | `unindent` is a lower bound of every non-empty line's indentation and is attained; there is none iff every line is empty |
| Docstring.DedentRemovesIndentOnly | testapp/views.py:146-147 | each non-empty line loses exactly `unindent` leading characters, all whitespace |
| Docstring.DedentLeavesAFlushLine | testapp/views.py:146-147 | some non-empty line ends up empty or starting with non-whitespace |
| Docstring.DedentLeavesAFlushTextLine | testapp/views.py:146-147 | with no whitespace-only line, some line keeps text and starts with non-whitespace |
| Docstring.PrepareDocstring | testapp/views.py:141-151 | nothing without a docstring; `ValueError` iff no line is non-empty; otherwise the un-indented lines, then `'\n'` and the extra lines only when `extra_doc` is truthy, then `''` and `'------'` |
| Docstring.ParserInputEndsWithTransition | testapp/views.py:151-152 | the text handed to the parser ends with a blank line and the transition `------` |
| Docstring.SplitLinesCons | testapp/views.py:146-147 | a line, a `\n` or `\r\n` boundary and more text split into that line, then the lines of the rest; a final boundary starts no further line |
| HolderRenderers.Key | testapp/views.py:258 | the key is the name at top level, and otherwise exactly the path, a dot, then the name |
| HolderRenderers.LeavesAppend | testapp/views.py:256-260 | the forms under a concatenation of holders are those of each part, in order |
| HolderRenderers.TraverseHolders | testapp/views.py:256-264 | every form reached through nested collections gets the custom renderer with the attributes stored under its dotted key if that key is present, and the default renderer otherwise |
| Ownership.StampEntry | testapp/views.py:324 | an entry is stamped iff it is a mapping with a company mapping; otherwise a `KeyError` iff the entry has no company, and a `TypeError` else |
| Ownership.StampEntryOwns | testapp/views.py:324 | a stamped entry belongs to the session, and nothing but its company's `created_by` changed |
| Ownership.StampAllStopsAt | testapp/views.py:323-324 | the loop stamps the entries in order up to the first one it cannot stamp, then raises that entry's exception |
| Ownership.StampAllOwnsEveryEntry | testapp/views.py:323-324 | the stamping succeeds iff every entry can be stamped; then every entry belongs to the session, and only `company.created_by` changed |
| Ownership.StampAllIdempotent | testapp/views.py:323-324 | stamping again with the same key changes nothing more |
| Ownership.PostedCollection.StampCreatedBy | testapp/views.py:318-324 | the in-place loop leaves exactly the data and the exception that `StampAll` specifies, with a cycled key when the session had none |
| Ownership.OwnedInstance.Save | testapp/views.py:210 | saving writes `created_by` and changes nothing in memory |
| Ownership.StampValidHolders | testapp/views.py:327-329 | every valid holder's company instance gets the request's session key; the loop itself saves nothing |
| Ownership.FormValid | testapp/views.py:204-211 | the instance ends owned by the session key (cycled if missing), in memory and in the database; the second save happens iff the owner differed |
| Reporters.Construct | testapp/views.py:380-383 | the cleaned data overwrites the instance's fields except `id`; the other fields stay |
| Reporters.FindReporter | testapp/views.py:382 | found iff the cleaned id coerces to a stored key; a `KeyError` iff the cleaned data has no id; `DoesNotExist` for a `None` id or an id no reporter has; the coercion error for any other id that does not coerce |
| Reporters.FormCollectionValid | testapp/views.py:377-388 | delegated iff the submission is not partial; a bad request iff neither holder is valid; no save on an error or a bad request; a failed edit lookup raises exactly the lookup's exception and saves nothing; a returned id is stored |
| Reporters.CreateTakesPriority | testapp/views.py:379-380 | with both holders valid, a fresh reporter is stored under the next id, built from the posted fields as `construct_instance` builds it, and no other reporter changes |
| Reporters.MissingDataSavesNothing | testapp/views.py:384-385 | without either holder the answer is a bad request and nothing is saved |
| Reporters.EditChangesOnlyThatReporter | testapp/views.py:381-383 | editing replaces the posted fields of the named reporter only |
| Reporters.EditOfUnknownReporterRaises | testapp/views.py:382 | editing an unknown reporter raises `DoesNotExist` and saves nothing |
| Reporters.FormCollectionValidKeepsTableValid | testapp/views.py:377-388 | ids stay positive and below the next id to hand out, and no reporter disappears |

## Left out

- The ORM is a map from id to row. Querysets, `save`, transactions and Django's query semantics are left out beyond found, not found and an invalid id.
- Values.CoerceId: follows Python's `int()` on strings for ASCII digits with an optional sign and surrounding whitespace only. Underscores, non-ASCII digits and floats are not modelled.
- CompanyForms.DepartmentForm.constructor: requires `department_pk` to be absent, `None` or integer-coercible. The `ValueError` that the queryset filter raises for any other value is not modelled.
- The related manager of an unsaved parent raises `ValueError` before the id is read, as Django 4.1 and later do (setup.py:22-23 lists Django 4.2 and 5.0). Django 4.0, which setup.py:35 still admits, runs the query instead. That variant is not modelled.
- The sibling limits are recorded as class settings only. What the formset library does with them is not modelled.
- HTTP requests and responses, sessions, `cycle_key` and URL resolution are left out. The session key and the key `cycle_key` would create are parameters.
- The debug `print` calls are left out. They are output only.
- Form and widget rendering, renderer classes, `import_string`, templates, docutils parsing and HTML writing are left out. Only the text handed to the parser is modelled.
- `get_collection_class`, the construction of the collection's default renderer, is left out. A custom renderer is modelled by the attributes it is built with.
- `JSONEncoder.default` is left out. It is type dispatch over Django file and model classes.
- client/django-formset/FormDialog.ts is not part of this model. It is DOM and event-listener code.
- testapp/urls.py and setup.py are not part of this model. They are configuration and packaging.
- The `demo_css_classes` table and `urlpatterns` are not modelled as a whole. They appear only as example data in lemmas.
- Reporters.Construct: copies every cleaned field except `id`. The model's field list, which limits the copy in `construct_instance`, is not modelled.
- Reporters.FormCollectionValid: the generic handling that a complete submission is delegated to is not modelled.
- Ownership.PostedCollection.StampCreatedBy: models `form_collection.data` as a sequence of posted entries, since the collection has siblings.
- HolderRenderers.TraverseHolders: requires every form object to sit under one key only. Python also accepts one form object under two keys, and then the renderer of the later key wins; every collection in testapp/forms/company.py declares distinct forms.
- Ownership.StampValidHolders: models each valid holder by its company instance. The `holder['company']` lookup cannot fail for a valid holder.
- Ownership.StampValidHolders: models the loop of testapp/views.py:328-329 only. The call to the inherited `form_collection_valid` at testapp/views.py:330, which saves the instances, is not modelled.
