/**
 * The field-customisation hook (hooks/customize_fields.py): a per-delivery-type
 * rewrite of the template fields that build the final delivery path.
 */
module CustomizeFields {
  import opened Wrappers
  import Delivery

  /** Template fields by name, as the hook receives and returns them. */
  type TemplateFields = map<string, string>

  const TechnicolorType := "to_technicolor"
  const ShotKey := "Shot"

  predicate IsLowerAscii(c: char) {
    'a' <= c <= 'z'
  }

  /** Upper-case form of one character: ASCII letters only. */
  function UpperChar(c: char): char {
    if IsLowerAscii(c) then (c as int - 32) as char else c
  }

  /** No character of `s` is a lower-case ASCII letter. */
  predicate IsUpper(s: string) {
    forall i :: 0 <= i < |s| ==> !IsLowerAscii(s[i])
  }

  /** `str.upper` restricted to ASCII: every lower-case letter becomes its capital. */
  function Upper(s: string): (u: string)
    ensures |u| == |s|
    ensures IsUpper(u)
    ensures IsUpper(s) ==> u == s
  {
    if s == [] then []
    else
      var rest := Upper(s[1..]);
      assert IsUpper(s) ==> IsUpper(s[1..]) by {
        if IsUpper(s) {
          forall i | 0 <= i < |s[1..]| ensures !IsLowerAscii(s[1..][i]) {
            assert s[1..][i] == s[i + 1];
          }
        }
      }
      var u := [UpperChar(s[0])] + rest;
      assert forall i :: 0 < i < |u| ==> u[i] == rest[i - 1];
      assert s == [s[0]] + s[1..];
      u
  }

  /** Upper-casing an upper-cased string changes nothing. */
  lemma UpperIdempotent(s: string)
    ensures Upper(Upper(s)) == Upper(s)
  {
  }

  /**
   * `CustomizeFields.execute`: for a `to_technicolor` delivery the `Shot`
   * value is upper-cased (a `KeyError` when there is no `Shot`); for any other
   * delivery type the fields are returned as they are.
   */
  function Execute(fields: TemplateFields, delivery: Delivery.DeliveryData): (r: Result<TemplateFields, KeyError>)
    ensures delivery.Type() != Some(TechnicolorType) ==> r == Success(fields)
    ensures delivery.Type() == Some(TechnicolorType) ==> (r.Failure? <==> ShotKey !in fields)
    ensures r.Failure? ==> r.error == KeyError(ShotKey)
    ensures delivery.Type() == Some(TechnicolorType) && r.Success? ==>
              && r.value.Keys == fields.Keys
              && r.value[ShotKey] == Upper(fields[ShotKey])
              && forall k :: k in fields && k != ShotKey ==> r.value[k] == fields[k]
  {
    if delivery.Type() == Some(TechnicolorType) then
      if ShotKey in fields then Success(fields[ShotKey := Upper(fields[ShotKey])])
      else Failure(KeyError(ShotKey))
    else Success(fields)
  }

  /** Running the hook on its own output gives the same fields: it is idempotent. */
  lemma {:induction false} ExecuteIdempotent(fields: TemplateFields, delivery: Delivery.DeliveryData)
    requires Execute(fields, delivery).Success?
    ensures Execute(Execute(fields, delivery).value, delivery) == Execute(fields, delivery)
  {
    if delivery.Type() == Some(TechnicolorType) {
      var once := Execute(fields, delivery).value;
      UpperIdempotent(fields[ShotKey]);
      assert once[ShotKey := Upper(once[ShotKey])] == once;
    }
  }
}
