# tk-consolidator core, modelled in Dafny

The consolidator prepares media for client delivery. A Delivery record in the
tracking database links the Versions to send. `Consolidator.run` fetches those
Versions in one batched query. It then picks the delivery settings configured
for the delivery's type and reads the sequence delivery template name from
them.

Two more pieces are modelled. `Consolidator._find_sequence_range` is a helper
that asks the path-template engine for the frame range of an image sequence;
nothing in the consolidator calls it yet. The `CustomizeFields` hook rewrites
template fields per delivery type; the consolidator code never invokes it, and
`run` applies the raw fields to the delivery template.

This project models that logic as pure functions and proves its properties:

- `wrappers.dfy` (module `Wrappers`): `Option`, `Result`, and `KeyError`. A
  `KeyError` stands for the exception a Python dictionary subscript raises
  when the key is missing.
- `delivery.dfy` (module `Delivery`): the Delivery record's two requested
  fields, its type as `DeliveryData.Type` (the `Delivery.type` property), and
  the filter value that `Delivery.get_versions` passes to `find`.
  `find` itself is a function parameter.
- `consolidator.dfy` (module `Consolidator`):
  - the settings-selection loop of `Consolidator.run`, read as a front-to-back
    fold and proved equal to a last-match reference definition;
  - the `sequence_delivery_template` lookup;
  - `_find_sequence_range`, with `template_from_path`, `get_fields` and
    `paths_from_template` as function parameters.
- `customize_fields.dfy` (module `CustomizeFields`): the `CustomizeFields.execute`
  hook.

Three Python `KeyError` paths are modelled as a `Failure(KeyError(key))` result
rather than excluded by a precondition. These paths are `t['name']`,
`delivery_settings['sequence_delivery_template']` and `fields['Shot']`. The
fourth, `v['id']` on a linked version, is not modelled; see "Left out".

## Model

| member | source | states |
|---|---|---|
| Delivery.VersionClauses | python/app/consolidator.py:49-51 | one `["id","is",id]` clause per linked version, clause i carrying the id of link i, so the clause ids are the link ids in order |
| Delivery.VersionsQuery | python/app/consolidator.py:34-56 | no query exactly when `sg_versions` is absent, null or empty; otherwise a `Version` query for `sg_path_to_frames` whose filter is a single `any` group of `id is` clauses asking for exactly the linked ids in link order |
| Delivery.GetVersions | python/app/consolidator.py:32-58 | with no linked versions the result is the empty list; otherwise it is what `find` returns for the batched query |
| Delivery.QuerySelectsExactlyLinked | python/app/consolidator.py:49-54 | a record id satisfies the `any` filter if and only if some linked version carries that id |
| Delivery.NoVersionsNoQuery | python/app/consolidator.py:34-41 | with `sg_versions` absent or empty, the result is `[]` whatever the database would answer |
| Consolidator.LastMatch | python/app/consolidator.py:135-139 | reference selection: `None` exactly when no entry's `name` equals the type, otherwise an entry that matches and has no matching entry after it |
| Consolidator.SelectFrom | python/app/consolidator.py:135-139 | the front-to-back loop starting from any selection raises a `KeyError` on `name` exactly when some entry lacks `name`, and otherwise ends on the last match, or on the starting selection when nothing matches |
| Consolidator.SelectSettings | python/app/consolidator.py:135-139 | the selected settings are the last entry whose `name` equals the delivery type, empty when none matches, and a `KeyError` on `name` exactly when some entry lacks it |
| Consolidator.NonMatchingEntryIgnored | python/app/consolidator.py:136-138 | inserting an entry for another type anywhere in `delivery_types` leaves the selection unchanged |
| Consolidator.LastMatchingEntryWins | python/app/consolidator.py:136-139 | a matching entry after all the others is selected, overwriting earlier matches |
| Consolidator.SequenceDeliveryTemplate | python/app/consolidator.py:142 | the template name is found exactly when the settings are non-empty and hold the key, and a `KeyError` on `sequence_delivery_template` otherwise |
| Consolidator.NoMatchingTypeIsError | python/app/consolidator.py:135-142 | when no `delivery_types` entry matches the type: with every entry named, the settings stay empty and the lookup raises a `KeyError` on `sequence_delivery_template`; otherwise a `KeyError` on `name` is raised first |
| Consolidator.DeliveryTemplateName | python/app/consolidator.py:135-142 | the run obtains a template name if and only if every entry is named and the last entry matching the type has a `sequence_delivery_template`; the name is that last matching entry's; an unnamed entry gives a `KeyError` on `name`, and any other failure is a `KeyError` on `sequence_delivery_template` |
| Consolidator.CollectFrames | python/app/consolidator.py:112-117 | a number is collected if and only if some sibling file's `SEQ` field holds it; null or missing `SEQ` values are skipped |
| Consolidator.Min | python/app/consolidator.py:122 | `min(frames)` is a collected frame and no collected frame is smaller |
| Consolidator.Max | python/app/consolidator.py:122 | `max(frames)` is a collected frame and no collected frame is larger |
| Consolidator.FrameRange | python/app/consolidator.py:118-122 | none exactly when nothing was collected; otherwise `(lo, hi)` with `lo <= hi`, both collected, and every collected frame in `[lo, hi]` |
| Consolidator.FrameRangeUnique | python/app/consolidator.py:122 | any pair of collected frames bracketing all the others is exactly the returned range |
| Consolidator.FindSequenceRange | python/app/consolidator.py:83-122 | none when no template matches the path, or when its fields lack `SEQ`; otherwise none exactly when no sibling file has a non-null `SEQ`, and a range is bounded by, attained by and covering every sibling's frame |
| CustomizeFields.Upper | hooks/customize_fields.py:20 | upper-casing keeps the length, leaves no lower-case letter, and fixes strings already upper-case |
| CustomizeFields.UpperIdempotent | hooks/customize_fields.py:20 | upper-casing twice equals upper-casing once |
| CustomizeFields.Execute | hooks/customize_fields.py:19-23 | for `to_technicolor` the `Shot` value becomes its upper-case form, every other key keeps its value, and the key set is unchanged; a missing `Shot` is a `KeyError`; any other type returns the fields unchanged |
| CustomizeFields.ExecuteIdempotent | hooks/customize_fields.py:19-20 | applying the hook to its own output returns that output again |

## Left out

- Argument parsing (python/app/consolidator.py:70-81) is a thin `argparse` wrapper.
- The tracking-database calls `find_one` and `find` (python/app/consolidator.py:22-25, 56) are I/O. Only the filter value `find` receives is modelled, with `find` as a function parameter. A Delivery id with no record makes `sg_data` null and later `.get` calls crash. This model starts from a fetched record.
- The template engine is an external library. This covers `template_from_path`, `get_fields`, `paths_from_template`, `apply_fields` and `get_template_by_name` (python/app/consolidator.py:97, 105, 109, 143, 156-160). The first three are function parameters of `FindSequenceRange`. A `TankError` from `template_from_path` is folded into its `None` answer. The other two are not modelled.
- `asset_from_path` and the logger (python/app/consolidator.py:3-6, 153) are code that is not part of this model. The warnings the code logs are not modelled.
- The per-version processing loop (python/app/consolidator.py:149-166) is unfinished. It stops at a debugger break and has no stated result.
- The error log at python/app/consolidator.py:145-146 refers to an undefined `template_name`. It is not modelled as behaviour.
- Consolidator.FindSequenceRange: reaches the template engine through `self.parent`, which the class does not define. Its `except TankError` names an exception that is not imported. The model states the evidently intended logic with the engine as parameters, not the crash.
- Consolidator.Fields: template fields are modelled as integer-or-null values, because only the integer `SEQ` field is read. Fields of other kinds are not represented.
- Consolidator.SettingsEntry: `delivery_types` entries are modelled as string-to-string maps. Non-string configuration values are not represented.
- CustomizeFields.Upper: upper-cases ASCII letters only. Python's Unicode `str.upper`, which can also change a string's length, is not modelled. So `Upper` states the ASCII behaviour, and the hook's properties rest on it.
- CustomizeFields.Execute: returns a new map. The Python hook mutates the `fields` dictionary it was given and returns that same object.
- CustomizeFields.Execute: fields are modelled as string-to-string maps. Real template fields also hold integers, such as `SEQ`. A non-string `Shot` would raise `AttributeError` at hooks/customize_fields.py:20, and this model does not represent that.
- Delivery.VersionClauses: links are modelled as always carrying an id. A link without `id` would raise `KeyError` at python/app/consolidator.py:51, but tracking-database entity links always carry one.
