/**
 * The pure logic of `Consolidator` (python/app/consolidator.py): choosing the
 * delivery settings for a delivery type, reading the sequence delivery
 * template name from them, and extracting the frame range of an image
 * sequence through the path-template engine, which is passed in as functions.
 */
module Consolidator {
  import opened Wrappers
  import Delivery

  /** One entry of the `delivery_types` setting: a string-keyed configuration record. */
  type SettingsEntry = map<string, string>

  const NameKey := "name"
  const SequenceTemplateKey := "sequence_delivery_template"

  /** An entry configures the given delivery type: its `name` is present and equals the type. */
  predicate IsMatch(entry: SettingsEntry, deliveryType: Option<string>) {
    NameKey in entry && Some(entry[NameKey]) == deliveryType
  }

  /**
   * Reference definition of the selected settings, read from the back: the
   * last entry configuring the type, if any.
   */
  function LastMatch(entries: seq<SettingsEntry>, deliveryType: Option<string>): (r: Option<SettingsEntry>)
    ensures r.None? <==> forall j :: 0 <= j < |entries| ==> !IsMatch(entries[j], deliveryType)
    ensures r.Some? ==> exists j :: 0 <= j < |entries| && entries[j] == r.value && IsMatch(entries[j], deliveryType)
                                    && forall k :: j < k < |entries| ==> !IsMatch(entries[k], deliveryType)
  {
    if entries == [] then None
    else if IsMatch(entries[|entries| - 1], deliveryType) then Some(entries[|entries| - 1])
    else
      var init := entries[..|entries| - 1];
      assert forall j :: 0 <= j < |init| ==> init[j] == entries[j];
      LastMatch(init, deliveryType)
  }

  /**
   * The settings loop of `Consolidator.run`, scanning front to back from the
   * current selection `acc`: an entry without `name` raises, an entry with
   * another name is skipped, a matching entry replaces the selection. The
   * loop raises exactly when some entry lacks `name`, and otherwise ends on
   * the last match, or on `acc` when nothing matches.
   */
  function SelectFrom(entries: seq<SettingsEntry>, deliveryType: Option<string>, acc: Option<SettingsEntry>): (r: Result<Option<SettingsEntry>, KeyError>)
    ensures r.Failure? <==> !AllNamed(entries)
    ensures r.Failure? ==> r.error == KeyError(NameKey)
    ensures r.Success? ==> r.value == (if LastMatch(entries, deliveryType).Some? then LastMatch(entries, deliveryType) else acc)
  {
    if entries == [] then Success(acc)
    else
      AllNamedCons(entries);
      LastMatchOfCons(entries[0], entries[1..], deliveryType);
      assert entries == [entries[0]] + entries[1..];
      if NameKey !in entries[0] then Failure(KeyError(NameKey))
      else if Some(entries[0][NameKey]) != deliveryType then SelectFrom(entries[1..], deliveryType, acc)
      else SelectFrom(entries[1..], deliveryType, Some(entries[0]))
  }

  /** Every entry carries a `name`, so reading `t['name']` never raises. */
  predicate AllNamed(entries: seq<SettingsEntry>) {
    forall j :: 0 <= j < |entries| ==> NameKey in entries[j]
  }

  /** All entries are named exactly when the head and all of the tail are. */
  lemma AllNamedCons(entries: seq<SettingsEntry>)
    requires entries != []
    ensures AllNamed(entries) <==> NameKey in entries[0] && AllNamed(entries[1..])
  {
  }

  /** Reading the reference definition on a list split into its head and tail. */
  lemma {:induction false} LastMatchOfCons(head: SettingsEntry, rest: seq<SettingsEntry>, deliveryType: Option<string>)
    ensures LastMatch([head] + rest, deliveryType) ==
              if LastMatch(rest, deliveryType).Some? then LastMatch(rest, deliveryType)
              else if IsMatch(head, deliveryType) then Some(head) else None
  {
    if rest != [] {
      var init := rest[..|rest| - 1];
      assert ([head] + rest)[..|[head] + rest| - 1] == [head] + init;
      LastMatchOfCons(head, init, deliveryType);
    }
  }

  /**
   * The delivery settings chosen in `Consolidator.run`: the last entry of
   * `delivery_types` whose `name` equals the delivery type, `None` (the empty
   * settings) when no entry matches, and a `KeyError` when an entry lacks `name`.
   */
  function SelectSettings(entries: seq<SettingsEntry>, deliveryType: Option<string>): (r: Result<Option<SettingsEntry>, KeyError>)
    ensures r.Failure? <==> !AllNamed(entries)
    ensures r.Failure? ==> r.error == KeyError(NameKey)
    ensures r.Success? ==> r.value == LastMatch(entries, deliveryType)
  {
    SelectFrom(entries, deliveryType, None)
  }

  /** Entries configuring other types never affect the selection, wherever they are inserted. */
  lemma {:induction false} NonMatchingEntryIgnored(before: seq<SettingsEntry>, entry: SettingsEntry, after: seq<SettingsEntry>, deliveryType: Option<string>)
    requires NameKey in entry && !IsMatch(entry, deliveryType)
    ensures SelectSettings(before + [entry] + after, deliveryType) == SelectSettings(before + after, deliveryType)
  {
    LastMatchSkips(before, entry, after, deliveryType);
    var withE := before + [entry] + after;
    var without := before + after;
    assert AllNamed(withE) <==> AllNamed(without) by {
      if AllNamed(without) {
        forall j | 0 <= j < |withE| ensures NameKey in withE[j] {
          if j < |before| { assert withE[j] == without[j]; }
          else if j > |before| { assert withE[j] == without[j - 1]; }
        }
      }
      if AllNamed(withE) {
        forall j | 0 <= j < |without| ensures NameKey in without[j] {
          if j < |before| { assert without[j] == withE[j]; }
          else { assert without[j] == withE[j + 1]; }
        }
      }
    }
  }

  /** The reference selection does not see an entry that does not match the type. */
  lemma {:induction false} LastMatchSkips(before: seq<SettingsEntry>, entry: SettingsEntry, after: seq<SettingsEntry>, deliveryType: Option<string>)
    requires !IsMatch(entry, deliveryType)
    ensures LastMatch(before + [entry] + after, deliveryType) == LastMatch(before + after, deliveryType)
    decreases |after|
  {
    if after == [] {
      assert before + [entry] + after == before + [entry];
      assert (before + [entry])[..|before + [entry]| - 1] == before;
      assert before + after == before;
    } else {
      var init := after[..|after| - 1];
      assert (before + [entry] + after)[..|before + [entry] + after| - 1] == before + [entry] + init;
      assert (before + after)[..|before + after| - 1] == before + init;
      LastMatchSkips(before, entry, init, deliveryType);
    }
  }

  /** A matching entry placed after all others is the one selected: earlier matches are overwritten. */
  lemma LastMatchingEntryWins(entries: seq<SettingsEntry>, entry: SettingsEntry, deliveryType: Option<string>)
    requires AllNamed(entries) && IsMatch(entry, deliveryType)
    ensures SelectSettings(entries + [entry], deliveryType) == Success(Some(entry))
  {
  }

  /**
   * `delivery_settings['sequence_delivery_template']`: the template name of
   * the selected settings, a `KeyError` when the settings are empty or lack it.
   */
  function SequenceDeliveryTemplate(settings: Option<SettingsEntry>): (r: Result<string, KeyError>)
    ensures r.Success? <==> settings.Some? && SequenceTemplateKey in settings.value
    ensures r.Success? ==> r.value == settings.value[SequenceTemplateKey]
    ensures r.Failure? ==> r.error == KeyError(SequenceTemplateKey)
  {
    match settings
    case None => Failure(KeyError(SequenceTemplateKey))
    case Some(s) => if SequenceTemplateKey in s then Success(s[SequenceTemplateKey]) else Failure(KeyError(SequenceTemplateKey))
  }

  /**
   * The settings selection followed by the template-name lookup, as
   * `Consolidator.run` performs them: a name is obtained exactly when every
   * entry is named and the last entry matching the delivery's type holds a
   * `sequence_delivery_template`.
   */
  function DeliveryTemplateName(entries: seq<SettingsEntry>, delivery: Delivery.DeliveryData): (r: Result<string, KeyError>)
    ensures r.Success? <==>
              AllNamed(entries) &&
              (exists j :: 0 <= j < |entries| && IsMatch(entries[j], delivery.Type())
                 && SequenceTemplateKey in entries[j]
                 && forall k :: j < k < |entries| ==> !IsMatch(entries[k], delivery.Type()))
    ensures r.Success? ==>
              exists j :: 0 <= j < |entries| && IsMatch(entries[j], delivery.Type())
                && SequenceTemplateKey in entries[j] && r.value == entries[j][SequenceTemplateKey]
                && forall k :: j < k < |entries| ==> !IsMatch(entries[k], delivery.Type())
    ensures !AllNamed(entries) ==> r == Failure(KeyError(NameKey))
    ensures AllNamed(entries) && r.Failure? ==> r.error == KeyError(SequenceTemplateKey)
  {
    match SelectSettings(entries, delivery.Type())
    case Failure(e) => Failure(e)
    case Success(settings) => SequenceDeliveryTemplate(settings)
  }

  /**
   * When no entry configures the delivery's type, the run cannot obtain a
   * delivery template. With every entry named, the selected settings are
   * empty and the lookup raises a `KeyError` on `sequence_delivery_template`;
   * otherwise the loop has already raised a `KeyError` on `name`.
   */
  lemma NoMatchingTypeIsError(entries: seq<SettingsEntry>, delivery: Delivery.DeliveryData)
    requires forall j :: 0 <= j < |entries| ==> !IsMatch(entries[j], delivery.Type())
    ensures AllNamed(entries) ==> SelectSettings(entries, delivery.Type()) == Success(None)
    ensures AllNamed(entries) ==> DeliveryTemplateName(entries, delivery) == Failure(KeyError(SequenceTemplateKey))
    ensures !AllNamed(entries) ==> DeliveryTemplateName(entries, delivery) == Failure(KeyError(NameKey))
  {
  }

  /** Frame-range extraction, as `Consolidator._find_sequence_range` performs it. */

  /**
   * The fields the template engine extracts from a path, as far as the range
   * extraction reads them: each key maps to an integer value or to null.
   */
  type Fields = map<string, Option<int>>

  const SeqKey := "SEQ"
  const EyeKey := "eye"

  /** `fields.get("SEQ")`: the frame number of a path, absent when the key is missing or null. */
  function FrameOf(fields: Fields): Option<int> {
    if SeqKey in fields then fields[SeqKey] else None
  }

  /** The non-null `SEQ` values of the given files, in file order. */
  function CollectFrames(files: seq<string>, getFields: string -> Fields): (frames: seq<int>)
    ensures |frames| <= |files|
    ensures forall n :: n in frames <==> exists i :: 0 <= i < |files| && FrameOf(getFields(files[i])) == Some(n)
  {
    if files == [] then []
    else
      var rest := CollectFrames(files[1..], getFields);
      assert forall i :: 0 < i < |files| ==> files[i] == files[1..][i - 1];
      match FrameOf(getFields(files[0]))
      case Some(n) => [n] + rest
      case None => rest
  }

  /** The smallest frame, as Python's `min`. */
  function Min(frames: seq<int>): (lo: int)
    requires |frames| > 0
    ensures lo in frames
    ensures forall f :: f in frames ==> lo <= f
  {
    if |frames| == 1 then frames[0]
    else
      var m := Min(frames[1..]);
      assert forall f :: f in frames ==> f == frames[0] || f in frames[1..];
      if frames[0] <= m then frames[0] else m
  }

  /** The largest frame, as Python's `max`. */
  function Max(frames: seq<int>): (hi: int)
    requires |frames| > 0
    ensures hi in frames
    ensures forall f :: f in frames ==> f <= hi
  {
    if |frames| == 1 then frames[0]
    else
      var m := Max(frames[1..]);
      assert forall f :: f in frames ==> f == frames[0] || f in frames[1..];
      if frames[0] >= m then frames[0] else m
  }

  /** `(min(frames), max(frames))`, or `None` when no frame was collected. */
  function FrameRange(frames: seq<int>): (r: Option<(int, int)>)
    ensures r.None? <==> frames == []
    ensures r.Some? ==> r.value.0 <= r.value.1
    ensures r.Some? ==> r.value.0 in frames && r.value.1 in frames
    ensures r.Some? ==> forall f :: f in frames ==> r.value.0 <= f <= r.value.1
  {
    if frames == [] then None else Some((Min(frames), Max(frames)))
  }

  /** The bounds are the only pair with those properties: any bracketing pair of members equals them. */
  lemma FrameRangeUnique(frames: seq<int>, lo: int, hi: int)
    requires lo in frames && hi in frames
    requires forall f :: f in frames ==> lo <= f <= hi
    ensures FrameRange(frames) == Some((lo, hi))
  {
  }

  /**
   * The frame range of the sequence a path belongs to. `templateFromPath`,
   * `getFields` and `pathsFromTemplate` stand for the template engine; a
   * lookup that raises is `None` as well.
   */
  function FindSequenceRange<Tmpl>(
    path: string,
    templateFromPath: string -> Option<Tmpl>,
    getFields: (Tmpl, string) -> Fields,
    pathsFromTemplate: (Tmpl, Fields, seq<string>) -> seq<string>
  ): (r: Option<(int, int)>)
    ensures templateFromPath(path).None? ==> r.None?
    ensures templateFromPath(path).Some? && SeqKey !in getFields(templateFromPath(path).value, path) ==> r.None?
    ensures r.Some? ==>
      var t := templateFromPath(path).value;
      var files := pathsFromTemplate(t, getFields(t, path), [SeqKey, EyeKey]);
      && r.value.0 <= r.value.1
      && (exists i :: 0 <= i < |files| && FrameOf(getFields(t, files[i])) == Some(r.value.0))
      && (exists i :: 0 <= i < |files| && FrameOf(getFields(t, files[i])) == Some(r.value.1))
      && forall i, n :: 0 <= i < |files| && FrameOf(getFields(t, files[i])) == Some(n) ==> r.value.0 <= n <= r.value.1
    ensures templateFromPath(path).Some? && SeqKey in getFields(templateFromPath(path).value, path) ==>
      var t := templateFromPath(path).value;
      var files := pathsFromTemplate(t, getFields(t, path), [SeqKey, EyeKey]);
      (r.None? <==> forall i :: 0 <= i < |files| ==> FrameOf(getFields(t, files[i])).None?)
  {
    match templateFromPath(path)
    case None => None
    case Some(t) =>
      var fields := getFields(t, path);
      if SeqKey !in fields then None
      else
        var files := pathsFromTemplate(t, fields, [SeqKey, EyeKey]);
        var frames := CollectFrames(files, f => getFields(t, f));
        FrameRange(frames)
  }
}
