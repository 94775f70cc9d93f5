/**
 * The `Login` records of the two-factor handshake, kept as a sequence in
 * insertion order, and the conditional bulk patch phase 2 applies to them.
 */
module LoginStore {

  /** One login attempt: its code, whether the code was used, the issued token. */
  datatype Login = Login(usuarioId: string, codigo2fa: string, estadoCodigo2fa: bool,
                         token: string, estadoToken: bool)

  /** A login of `uid` whose code has not been used yet. */
  predicate IsPending(l: Login, uid: string)
  {
    l.usuarioId == uid && !l.estadoCodigo2fa
  }

  /** Number of pending logins of `uid`. */
  function CountPending(logins: seq<Login>, uid: string): (n: nat)
    ensures n <= |logins|
    ensures n == 0 <==> forall i :: 0 <= i < |logins| ==> !IsPending(logins[i], uid)
  {
    if |logins| == 0 then 0
    else (if IsPending(logins[0], uid) then 1 else 0) + CountPending(logins[1..], uid)
  }

  /** Counting distributes over appending records at the end of the store. */
  lemma {:induction false} CountPendingAppend(a: seq<Login>, b: seq<Login>, uid: string)
    ensures CountPending(a + b, uid) == CountPending(a, uid) + CountPending(b, uid)
    decreases |a|
  {
    if |a| == 0 {
      assert a + b == b;
    } else {
      assert (a + b)[1..] == a[1..] + b;
      CountPendingAppend(a[1..], b, uid);
    }
  }

  /**
   * `usuarioRepository.logins(uid).patch({estadoCodigo2fa: true, token},
   * {estadoCodigo2fa: false})`: every pending login of `uid` gets its code
   * marked used and the token written; every other record is left as it is.
   */
  function PatchLogins(logins: seq<Login>, uid: string, token: string): (r: seq<Login>)
    ensures |r| == |logins|
    ensures forall i :: 0 <= i < |logins| && IsPending(logins[i], uid) ==>
              r[i] == logins[i].(estadoCodigo2fa := true, token := token)
    ensures forall i :: 0 <= i < |logins| && !IsPending(logins[i], uid) ==> r[i] == logins[i]
  {
    if |logins| == 0 then []
    else
      var head := if IsPending(logins[0], uid)
                  then logins[0].(estadoCodigo2fa := true, token := token)
                  else logins[0];
      [head] + PatchLogins(logins[1..], uid, token)
  }

  /** After the patch no login of `uid` is pending, and other users keep theirs. */
  lemma PatchConsumesAll(logins: seq<Login>, uid: string, token: string, other: string)
    requires other != uid
    ensures CountPending(PatchLogins(logins, uid, token), uid) == 0
    ensures CountPending(PatchLogins(logins, uid, token), other) == CountPending(logins, other)
  {
    var r := PatchLogins(logins, uid, token);
    assert forall i :: 0 <= i < |r| ==> !IsPending(r[i], uid);
    SameOtherPending(logins, r, uid, other);
  }

  /** Two stores that agree on every record not pending for `uid` count `other` alike. */
  lemma {:induction false} SameOtherPending(a: seq<Login>, b: seq<Login>, uid: string, other: string)
    requires other != uid
    requires |a| == |b|
    requires forall i :: 0 <= i < |a| && !IsPending(a[i], uid) ==> b[i] == a[i]
    requires forall i :: 0 <= i < |a| && IsPending(a[i], uid) ==> b[i].usuarioId == uid
    ensures CountPending(a, other) == CountPending(b, other)
    decreases |a|
  {
    if |a| > 0 {
      SameOtherPending(a[1..], b[1..], uid, other);
    }
  }

  /** Patching is idempotent: a second patch finds nothing pending to change. */
  lemma PatchIdempotent(logins: seq<Login>, uid: string, t1: string, t2: string)
    ensures PatchLogins(PatchLogins(logins, uid, t1), uid, t2) == PatchLogins(logins, uid, t1)
  {
  }

  /** Store invariant: a login whose token is active has its code used. */
  predicate TokenImpliesConsumed(logins: seq<Login>)
  {
    forall i :: 0 <= i < |logins| ==> logins[i].estadoToken ==> logins[i].estadoCodigo2fa
  }
}
