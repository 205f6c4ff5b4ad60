/** The check that keeps identity fields out of every message on the bridge. */
module Payload {
  import opened Wrappers
  import opened Json

  function ForbiddenIdentityField(v: Value): Option<string>
    decreases v, 1
  {
    match v
    case Obj(fields) =>
      if HasKey(fields, "sender") then Some("sender")
      else if HasKey(fields, "auth_token") then Some("auth_token")
      else FirstInFields(fields)
    case Arr(items) => FirstInItems(items)
    case _ => None
  }

  function FirstInItems(items: seq<Value>): Option<string>
    decreases items, 0
  {
    if items == [] then None
    else
      match ForbiddenIdentityField(items[0])
      case Some(name) => Some(name)
      case None => FirstInItems(items[1..])
  }

  function FirstInFields(fields: Fields): Option<string>
    decreases fields, 0
  {
    if fields == [] then None
    else
      match ForbiddenIdentityField(fields[0].value)
      case Some(name) => Some(name)
      case None => FirstInFields(fields[1..])
  }

  function ValidatePayload(v: Value): Result<(), string> {
    match ForbiddenIdentityField(v)
    case Some(name) => Err(name)
    case None => Ok(())
  }

  /** The envelope around a payload; a null payload is left out of it. */
  function Envelope(payload: Value): Value {
    if payload == Null then Obj([]) else Obj([Field("payload", payload)])
  }

  predicate Carries(v: Value, name: string) {
    v.Obj? && HasKey(v.fields, name)
  }

  predicate Identity(name: string) {
    name == "sender" || name == "auth_token"
  }

  /** Some object reachable from `v` carries the field `name`. */
  ghost predicate Reaches(v: Value, name: string) {
    exists path :: At(v, path).Some? && Carries(At(v, path).value, name)
  }

  lemma ReachesChild(v: Value, k: nat, name: string)
    requires k < |Children(v)| && Reaches(Children(v)[k], name)
    ensures Reaches(v, name)
  {
    var path :| At(Children(v)[k], path).Some? && Carries(At(Children(v)[k], path).value, name);
    assert ([k] + path)[1..] == path;
    assert At(v, [k] + path) == At(Children(v)[k], path);
  }

  lemma ReachesSplit(v: Value, name: string)
    requires Reaches(v, name)
    ensures Carries(v, name) || exists k | 0 <= k < |Children(v)| :: Reaches(Children(v)[k], name)
  {
    var path :| At(v, path).Some? && Carries(At(v, path).value, name);
    if path != [] {
      assert At(Children(v)[path[0]], path[1..]) == At(v, path);
      assert Reaches(Children(v)[path[0]], name);
    }
  }

  /** A name the check returns is an identity field that some reachable object carries. */
  lemma {:induction false} CheckIsSound(v: Value)
    requires ForbiddenIdentityField(v).Some?
    ensures Identity(ForbiddenIdentityField(v).value) && Reaches(v, ForbiddenIdentityField(v).value)
    decreases v, 1
  {
    var name := ForbiddenIdentityField(v).value;
    if Carries(v, name) && Identity(name) {
      assert At(v, []) == Some(v);
    } else if v.Obj? {
      var k := FieldsAreSound(v.fields);
      assert Children(v)[k] == v.fields[k].value;
      ReachesChild(v, k, name);
    } else {
      var k := ItemsAreSound(v.items);
      ReachesChild(v, k, name);
    }
  }

  lemma {:induction false} ItemsAreSound(items: seq<Value>) returns (k: nat)
    requires FirstInItems(items).Some?
    ensures k < |items| && Identity(FirstInItems(items).value) && Reaches(items[k], FirstInItems(items).value)
    decreases items, 0
  {
    if ForbiddenIdentityField(items[0]).Some? {
      CheckIsSound(items[0]);
      k := 0;
    } else {
      var j := ItemsAreSound(items[1..]);
      k := j + 1;
    }
  }

  lemma {:induction false} FieldsAreSound(fields: Fields) returns (k: nat)
    requires FirstInFields(fields).Some?
    ensures k < |fields| && Identity(FirstInFields(fields).value)
    ensures Reaches(fields[k].value, FirstInFields(fields).value)
    decreases fields, 0
  {
    if ForbiddenIdentityField(fields[0].value).Some? {
      CheckIsSound(fields[0].value);
      k := 0;
    } else {
      var j := FieldsAreSound(fields[1..]);
      k := j + 1;
    }
  }

  /** The check misses nothing, at any depth. */
  lemma {:induction false} CheckIsComplete(v: Value, name: string)
    requires Identity(name) && Reaches(v, name)
    ensures ForbiddenIdentityField(v).Some?
    decreases v, 1
  {
    ReachesSplit(v, name);
    if !Carries(v, name) {
      var k :| 0 <= k < |Children(v)| && Reaches(Children(v)[k], name);
      match v {
        case Obj(fields) => FieldsAreComplete(fields, k, name);
        case Arr(items) => ItemsAreComplete(items, k, name);
      }
    }
  }

  lemma {:induction false} ItemsAreComplete(items: seq<Value>, k: nat, name: string)
    requires Identity(name) && k < |items| && Reaches(items[k], name)
    ensures FirstInItems(items).Some?
    decreases items, 0
  {
    if k == 0 {
      CheckIsComplete(items[0], name);
    } else {
      ItemsAreComplete(items[1..], k - 1, name);
    }
  }

  lemma {:induction false} FieldsAreComplete(fields: Fields, k: nat, name: string)
    requires Identity(name) && k < |fields| && Reaches(fields[k].value, name)
    ensures FirstInFields(fields).Some?
    decreases fields, 0
  {
    if k == 0 {
      CheckIsComplete(fields[0].value, name);
    } else {
      FieldsAreComplete(fields[1..], k - 1, name);
    }
  }

  /** A payload is accepted exactly when no object in it, however deep, carries an identity field. */
  lemma AcceptedExactlyWhen(v: Value)
    ensures ValidatePayload(v).Ok? <==> !Reaches(v, "sender") && !Reaches(v, "auth_token")
    ensures ValidatePayload(v).Err? ==> Identity(ValidatePayload(v).error) && Reaches(v, ValidatePayload(v).error)
  {
    if ForbiddenIdentityField(v).Some? {
      CheckIsSound(v);
    } else {
      if Reaches(v, "sender") { CheckIsComplete(v, "sender"); }
      if Reaches(v, "auth_token") { CheckIsComplete(v, "auth_token"); }
    }
  }

  /** Putting a payload into its envelope changes neither acceptance nor the field reported. */
  lemma EnvelopeIsTransparent(v: Value)
    ensures ValidatePayload(Envelope(v)) == ValidatePayload(v)
  {
    if v != Null {
      var fields := [Field("payload", v)];
      assert !HasKey(fields, "sender") && !HasKey(fields, "auth_token") by {
        assert forall i | 0 <= i < |fields| :: fields[i].key == "payload";
        assert |"payload"| == 7 && |"sender"| == 6 && |"auth_token"| == 10;
      }
      assert fields[1..] == [] && FirstInFields(fields[1..]) == None;
      assert ForbiddenIdentityField(Obj(fields)) == FirstInFields(fields) == ForbiddenIdentityField(v);
    }
  }

  // ---- Which field is reported ----

  lemma {:induction false} FirstItemReported(items: seq<Value>, k: nat)
    requires k < |items| && ForbiddenIdentityField(items[k]).Some?
    requires forall i | 0 <= i < k :: ForbiddenIdentityField(items[i]).None?
    ensures FirstInItems(items) == ForbiddenIdentityField(items[k])
  {
    if k > 0 {
      FirstItemReported(items[1..], k - 1);
    }
  }

  lemma {:induction false} FirstFieldReported(fields: Fields, k: nat)
    requires k < |fields| && ForbiddenIdentityField(fields[k].value).Some?
    requires forall i | 0 <= i < k :: ForbiddenIdentityField(fields[i].value).None?
    ensures FirstInFields(fields) == ForbiddenIdentityField(fields[k].value)
  {
    if k > 0 {
      FirstFieldReported(fields[1..], k - 1);
    }
  }

  /**
   An object reports its own `sender` first, then its own `auth_token`; else the first offending
   child is reported.
   */
  lemma ReportIsFirst(v: Value, k: nat)
    ensures Carries(v, "sender") ==> ForbiddenIdentityField(v) == Some("sender")
    ensures Carries(v, "auth_token") && !Carries(v, "sender") ==> ForbiddenIdentityField(v) == Some("auth_token")
    ensures !Carries(v, "sender") && !Carries(v, "auth_token")
            && k < |Children(v)| && ForbiddenIdentityField(Children(v)[k]).Some?
            && (forall i | 0 <= i < k :: ForbiddenIdentityField(Children(v)[i]).None?) ==>
              ForbiddenIdentityField(v) == ForbiddenIdentityField(Children(v)[k])
  {
    if k < |Children(v)| && ForbiddenIdentityField(Children(v)[k]).Some?
       && forall i | 0 <= i < k :: ForbiddenIdentityField(Children(v)[i]).None? {
      match v {
        case Obj(fields) =>
          assert forall i | 0 <= i < |fields| :: Children(v)[i] == fields[i].value;
          FirstFieldReported(fields, k);
        case Arr(items) => FirstItemReported(items, k);
      }
    }
  }

  // ---- Envelopes ----

  /** Reading an envelope as one: a missing payload is null. */
  function Opened(v: Value): Option<Value> {
    match v
    case Obj(fields) => (match Get(fields, "payload") case Some(payload) => Some(payload) case None => Some(Null))
    case _ => None
  }

  /** Receiving text: whatever is valid becomes the payload, an envelope included. */
  function Received(v: Value): Result<Value, string> {
    match ValidatePayload(v)
    case Ok(_) => Ok(v)
    case Err(name) => Err(name)
  }

  /**
   An envelope read as an envelope gives its payload back. Received as plain text it does not: the
   payload received is the whole envelope, so every hop through text adds one.
   */
  lemma EnvelopesNest(v: Value)
    ensures Opened(Envelope(v)) == Some(v)
    ensures ValidatePayload(v).Ok? ==> Received(Envelope(v)) == Ok(Envelope(v)) && Envelope(v) != v
    ensures ValidatePayload(v).Err? ==> Received(Envelope(v)) == Err(ValidatePayload(v).error)
  {
    EnvelopeIsTransparent(v);
    if v != Null {
      var fields := [Field("payload", v)];
      assert Get(fields, "payload") == Some(v);
      EnvelopeIsBigger(v);
    }
  }

  lemma EnvelopeIsBigger(v: Value)
    ensures Envelope(v) != v
  {
    if v != Null {
      var fields := [Field("payload", v)];
      assert fields[0].value == v && fields[0] < Obj(fields) && v < fields[0];
    }
  }
}
