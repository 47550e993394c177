/** Token checks of src/server.rs and the device id rule of src/device_id.rs. */
module Auth {
  import opened Bytes
  import opened Messages

  const MIN_TOKEN_BYTES: nat := 32
  const MAX_TOKEN_BYTES: nat := 4096
  const MAX_ID_LENGTH: nat := 128

  datatype Snapshot = Snapshot(controllerToken: Token, deviceTokens: map<DeviceId, Token>)

  datatype Verdict = Accepted | NoDeviceId | InvalidDeviceId | UnknownDevice | InvalidDeviceToken | InvalidControllerToken

  function Max(a: nat, b: nat): nat {
    if a < b then b else a
  }

  predicate IdChar(c: char) {
    'a' <= c <= 'z' || 'A' <= c <= 'Z' || '0' <= c <= '9' || c == '.' || c == '_' || c == '-'
  }

  predicate ValidDeviceId(id: DeviceId) {
    0 < |id| <= MAX_ID_LENGTH && forall i :: 0 <= i < |id| ==> IdChar(id[i])
  }

  predicate ValidTokenLength(token: Token) {
    MIN_TOKEN_BYTES <= |token| <= MAX_TOKEN_BYTES
  }

  /** What it takes to be let in under a snapshot of the token files. */
  predicate Admits(auth: Snapshot, role: Role, deviceId: Option<DeviceId>, token: Token) {
    ValidTokenLength(token) &&
    match role
    case RoleController => token == auth.controllerToken
    case _ =>
      && deviceId.Some? && ValidDeviceId(deviceId.value)
      && deviceId.value in auth.deviceTokens && token == auth.deviceTokens[deviceId.value]
  }

  function At(s: Token, i: nat): nat {
    if i < |s| then s[i] as nat else 0
  }

  /** Exclusive or of two machine words, bit by bit. */
  function Xor(x: nat, y: nat): nat {
    if x == 0 && y == 0 then 0 else 2 * Xor(x / 2, y / 2) + (if x % 2 == y % 2 then 0 else 1)
  }

  function Or(x: nat, y: nat): nat {
    if x == 0 && y == 0 then 0 else 2 * Or(x / 2, y / 2) + (if x % 2 == 0 && y % 2 == 0 then 0 else 1)
  }

  lemma {:induction false} XorZero(x: nat, y: nat)
    ensures Xor(x, y) == 0 <==> x == y
  {
    if x != 0 || y != 0 {
      XorZero(x / 2, y / 2);
      assert x == 2 * (x / 2) + x % 2 && y == 2 * (y / 2) + y % 2;
    }
  }

  lemma {:induction false} OrZero(x: nat, y: nat)
    ensures Or(x, y) == 0 <==> x == 0 && y == 0
  {
    if x != 0 || y != 0 {
      OrZero(x / 2, y / 2);
    }
  }

  /**
   The comparison looks at every position of the longer string, whatever the contents (`rounds`), and
   still answers exactly whether the strings are equal.
   */
  method ConstantTimeEqual(left: Token, right: Token) returns (equal: bool, ghost rounds: nat)
    ensures equal <==> left == right
    ensures rounds == Max(|left|, |right|)
  {
    rounds := 0;
    var difference := Xor(|left|, |right|);
    XorZero(|left|, |right|);
    for index := 0 to Max(|left|, |right|)
      invariant rounds == index
      invariant difference == 0 <==> |left| == |right| && forall i :: 0 <= i < index ==> At(left, i) == At(right, i)
    {
      var a, b := At(left, index), At(right, index);
      OrZero(difference, Xor(a, b));
      XorZero(a, b);
      difference := Or(difference, Xor(a, b));
      rounds := rounds + 1;
    }
    equal := difference == 0;
    if equal {
      forall i | 0 <= i < |left|
        ensures left[i] == right[i]
      {
        assert At(left, i) == At(right, i);
      }
    }
  }

  /** The relay's check of a Hello, in its order of refusals. */
  method Authenticate(auth: Snapshot, role: Role, deviceId: Option<DeviceId>, token: Token) returns (verdict: Verdict)
    ensures verdict == Accepted <==> Admits(auth, role, deviceId, token)
    ensures verdict == Accepted ==> 32 <= |token| <= 4096
    ensures role == RoleController && 32 <= |token| <= 4096 ==>
              verdict == if token == auth.controllerToken then Accepted else InvalidControllerToken
    ensures role != RoleController && 32 <= |token| <= 4096 && deviceId.Some? && ValidDeviceId(deviceId.value)
            && deviceId.value in auth.deviceTokens ==>
              verdict == if token == auth.deviceTokens[deviceId.value] then Accepted else InvalidDeviceToken
    ensures role != RoleController ==>
              && (verdict == NoDeviceId <==> deviceId == None)
              && (verdict == InvalidDeviceId <==> deviceId.Some? && !ValidDeviceId(deviceId.value))
              && (verdict == UnknownDevice <==>
                  deviceId.Some? && ValidDeviceId(deviceId.value) && deviceId.value !in auth.deviceTokens)
    ensures verdict == InvalidControllerToken ==> role == RoleController
  {
    match role {
      case RoleController =>
        if !ValidTokenLength(token) {
          return InvalidControllerToken;
        }
        var same, _ := ConstantTimeEqual(token, auth.controllerToken);
        verdict := if same then Accepted else InvalidControllerToken;
      case _ =>
        if deviceId == None {
          return NoDeviceId;
        }
        var id := deviceId.value;
        if !ValidDeviceId(id) {
          return InvalidDeviceId;
        }
        if id !in auth.deviceTokens {
          return UnknownDevice;
        }
        if !ValidTokenLength(token) {
          return InvalidDeviceToken;
        }
        var same, _ := ConstantTimeEqual(token, auth.deviceTokens[id]);
        verdict := if same then Accepted else InvalidDeviceToken;
    }
  }
}
