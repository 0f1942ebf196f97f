/** The request and response records of the serving endpoint
    (A2/app/schemas.py). A request is accepted only when each of its
    thirteen fields lies within that field's own bound; there is no
    constraint between fields. */
module Schemas {

  /** `InputData`: the thirteen Boston-housing features of one request. */
  datatype InputData = InputData(
    crim: real, zn: real, indus: real, chas: int, nox: real, rm: real, age: real,
    dis: real, rad: int, tax: real, ptratio: real, b: real, lstat: real)

  /** `Metadata`: what the endpoint reports about the model it used. */
  datatype Metadata = Metadata(appVersion: string, modelVersion: string, timestampUtc: string)

  /** `PredictResponse`: the prediction and its metadata. */
  datatype PredictResponse = PredictResponse(prediction: real, metadata: Metadata)

  /** The field bounds, conjoined in declaration order. */
  predicate Valid(d: InputData) {
    && d.crim >= 0.0
    && d.zn >= 0.0
    && d.indus >= 0.0
    && 0 <= d.chas <= 1
    && d.nox > 0.0
    && d.rm > 0.0
    && d.age >= 0.0
    && d.dis > 0.0
    && d.rad >= 1
    && d.tax > 0.0
    && d.ptratio > 0.0
    && d.b >= 0.0
    && d.lstat >= 0.0
  }

  datatype Field = Crim | Zn | Indus | Chas | Nox | Rm | Age | Dis | Rad | Tax | Ptratio | B | Lstat

  /** The fields in declaration order. */
  const Fields: seq<Field> := [Crim, Zn, Indus, Chas, Nox, Rm, Age, Dis, Rad, Tax, Ptratio, B, Lstat]

  /** The kinds of bound a field declares: `ge=lo`, `gt=lo`, or
      `ge=lo, le=hi`. */
  datatype Bound = AtLeast(lo: real) | Above(lo: real) | Between(lo: real, hi: real)

  function FieldBound(f: Field): Bound {
    match f
    case Crim | Zn | Indus | Age | B | Lstat => AtLeast(0.0)
    case Nox | Rm | Dis | Tax | Ptratio => Above(0.0)
    case Chas => Between(0.0, 1.0)
    case Rad => AtLeast(1.0)
  }

  predicate IsIntField(f: Field) {
    f == Chas || f == Rad
  }

  predicate Satisfies(bound: Bound, v: real) {
    match bound
    case AtLeast(lo) => v >= lo
    case Above(lo) => v > lo
    case Between(lo, hi) => lo <= v <= hi
  }

  function FieldValue(d: InputData, f: Field): real {
    match f
    case Crim => d.crim
    case Zn => d.zn
    case Indus => d.indus
    case Chas => d.chas as real
    case Nox => d.nox
    case Rm => d.rm
    case Age => d.age
    case Dis => d.dis
    case Rad => d.rad as real
    case Tax => d.tax
    case Ptratio => d.ptratio
    case B => d.b
    case Lstat => d.lstat
  }

  predicate FieldOk(d: InputData, f: Field) {
    Satisfies(FieldBound(f), FieldValue(d, f))
  }

  /** `d` with field `f` set to `v`; an integer field takes `v` as an
      integer. */
  function With(d: InputData, f: Field, v: real): (r: InputData)
    requires IsIntField(f) ==> v == v.Floor as real
    ensures FieldValue(r, f) == v
    ensures forall g :: g != f ==> FieldValue(r, g) == FieldValue(d, g)
  {
    match f
    case Crim => d.(crim := v)
    case Zn => d.(zn := v)
    case Indus => d.(indus := v)
    case Chas => d.(chas := v.Floor)
    case Nox => d.(nox := v)
    case Rm => d.(rm := v)
    case Age => d.(age := v)
    case Dis => d.(dis := v)
    case Rad => d.(rad := v.Floor)
    case Tax => d.(tax := v)
    case Ptratio => d.(ptratio := v)
    case B => d.(b := v)
    case Lstat => d.(lstat := v)
  }

  /** The fields of `fs` whose bound `d` violates, in the order of `fs`:
      the error list of the validation error the request is rejected
      with. */
  function ViolationsIn(fs: seq<Field>, d: InputData): (r: seq<Field>)
    ensures forall f :: f in r <==> f in fs && !FieldOk(d, f)
    ensures |r| <= |fs|
  {
    if fs == [] then []
    else (if FieldOk(d, fs[0]) then [] else [fs[0]]) + ViolationsIn(fs[1..], d)
  }

  function Violations(d: InputData): seq<Field> {
    ViolationsIn(Fields, d)
  }

  /** A request is valid iff every field lies within its own bound. */
  lemma ValidIffEveryFieldOk(d: InputData)
    ensures Valid(d) <==> forall f :: FieldOk(d, f)
  {
    if Valid(d) {
      forall f ensures FieldOk(d, f) {
        match f
        case Crim => case Zn => case Indus => case Chas => case Nox => case Rm => case Age =>
        case Dis => case Rad => case Tax => case Ptratio => case B => case Lstat =>
      }
    } else {
      assert !FieldOk(d, Crim) || !FieldOk(d, Zn) || !FieldOk(d, Indus) || !FieldOk(d, Chas)
          || !FieldOk(d, Nox) || !FieldOk(d, Rm) || !FieldOk(d, Age) || !FieldOk(d, Dis)
          || !FieldOk(d, Rad) || !FieldOk(d, Tax) || !FieldOk(d, Ptratio) || !FieldOk(d, B)
          || !FieldOk(d, Lstat);
    }
  }

  /** A request is rejected iff its error list is non-empty, and a field
      is listed iff its bound fails. */
  lemma ValidIffNoViolations(d: InputData)
    ensures Valid(d) <==> Violations(d) == []
    ensures forall f :: f in Violations(d) <==> !FieldOk(d, f)
  {
    ValidIffEveryFieldOk(d);
    forall f ensures f in Fields {
      match f
      case Crim => case Zn => case Indus => case Chas => case Nox => case Rm => case Age =>
      case Dis => case Rad => case Tax => case Ptratio => case B => case Lstat =>
    }
    var vs := Violations(d);
    if vs != [] {
      assert vs[0] in vs;
    }
  }

  /** No bound depends on another field: in a valid request, replacing one
      field keeps it valid iff the new value meets that field's bound. */
  lemma NoCrossFieldConstraints(d: InputData, f: Field, v: real)
    requires Valid(d)
    requires IsIntField(f) ==> v == v.Floor as real
    ensures Valid(With(d, f, v)) <==> Satisfies(FieldBound(f), v)
  {
    ValidIffEveryFieldOk(d);
    var e := With(d, f, v);
    ValidIffEveryFieldOk(e);
    if Satisfies(FieldBound(f), v) {
      forall g ensures FieldOk(e, g) {
        if g != f {
          assert FieldOk(d, g);
        }
      }
    } else {
      assert !FieldOk(e, f);
    }
  }

  /** Zero is accepted for the `ge=0` fields and rejected for the `gt=0`
      ones; `chas` takes exactly 0 and 1, `rad` every integer from 1. */
  lemma BoundaryValues()
    ensures forall f :: FieldBound(f) == AtLeast(0.0) <==> f in {Crim, Zn, Indus, Age, B, Lstat}
    ensures forall f :: FieldBound(f) == Above(0.0) <==> f in {Nox, Rm, Dis, Tax, Ptratio}
    ensures forall f :: FieldBound(f) == AtLeast(0.0) ==> Satisfies(FieldBound(f), 0.0)
    ensures forall f :: FieldBound(f) == Above(0.0) ==> !Satisfies(FieldBound(f), 0.0)
    ensures forall d :: FieldOk(d, Chas) <==> d.chas == 0 || d.chas == 1
    ensures forall d :: FieldOk(d, Rad) <==> d.rad >= 1
  {
  }

  /** The request A2/test/test_api.py sends on the happy path. */
  const HappyPath: InputData := InputData(
    crim := 0.1, zn := 0.0, indus := 10.0, chas := 0, nox := 0.5, rm := 6.0, age := 65.0,
    dis := 3.5, rad := 5, tax := 293.0, ptratio := 16.0, b := 390.0, lstat := 10.0)

  lemma HappyPathAccepted()
    ensures Valid(HappyPath)
    ensures Violations(HappyPath) == []
  {
    ValidIffNoViolations(HappyPath);
  }

  /** Breaking one bound of a valid request makes it invalid, and that
      field is the only one reported. */
  lemma OnlyBrokenFieldReported(d: InputData, f: Field, v: real)
    requires Valid(d)
    requires IsIntField(f) ==> v == v.Floor as real
    requires !Satisfies(FieldBound(f), v)
    ensures !Valid(With(d, f, v))
    ensures forall g :: g in Violations(With(d, f, v)) <==> g == f
  {
    NoCrossFieldConstraints(d, f, v);
    var e := With(d, f, v);
    ValidIffNoViolations(e);
    ValidIffEveryFieldOk(d);
    forall g | g != f ensures FieldOk(e, g) {
      assert FieldOk(d, g);
    }
  }

  /** The same request with `age = -5.0` is rejected, and `age` is the
      only field reported. */
  lemma NegativeAgeRejected()
    ensures !Valid(With(HappyPath, Age, -5.0))
    ensures forall f :: f in Violations(With(HappyPath, Age, -5.0)) <==> f == Age
  {
    HappyPathAccepted();
    OnlyBrokenFieldReported(HappyPath, Age, -5.0);
  }
}
