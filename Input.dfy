/**
 * The keys an agent holds down. Keys are told apart by their code alone: pressing a key
 * whose code is already held keeps the key first stored under that code.
 */
module Input {

  /** A controller key; the key enum itself is not part of this model, only its code is. */
  datatype MarioKey = MarioKey(name: string, code: int)

  class MarioInput {
    /** The pressed set, ordered and compared by key code: at most one key per code. */
    var pressed: map<int, MarioKey>

    ghost predicate Valid()
      reads this
    {
      forall c :: c in pressed ==> pressed[c].code == c
    }

    constructor()
      ensures Valid() && pressed == map[]
    {
      pressed := map[];
    }

    /** getPressed: the keys held, one per code. */
    function GetPressed(): (keys: set<MarioKey>)
      reads this
      requires Valid()
      ensures forall k :: k in keys <==> k.code in pressed && pressed[k.code] == k
    {
      set c | c in pressed :: pressed[c]
    }

    /** isPressed: some held key has the code of key. */
    function IsPressed(key: MarioKey): (b: bool)
      reads this
      requires Valid()
      ensures b <==> exists k :: k in GetPressed() && k.code == key.code
    {
      assert key.code in pressed ==> pressed[key.code] in GetPressed();
      key.code in pressed
    }

    /** press: the key is held afterwards; if a key of the same code was already held the
        set does not change; no other code changes. */
    method Press(key: MarioKey)
      requires Valid()
      modifies this
      ensures Valid() && IsPressed(key)
      ensures key.code in old(pressed) ==> pressed == old(pressed)
      ensures key.code !in old(pressed) ==> pressed == old(pressed)[key.code := key]
    {
      if key.code !in pressed {
        pressed := pressed[key.code := key];
      }
    }

    /** release: the key's code is no longer held; releasing a key that is not held changes
        nothing; no other code changes. */
    method Release(key: MarioKey)
      requires Valid()
      modifies this
      ensures Valid() && !IsPressed(key)
      ensures pressed == old(pressed) - {key.code}
      ensures key.code !in old(pressed) ==> unchanged(this)
    {
      if key.code !in pressed {
        return;
      }
      pressed := pressed - {key.code};
    }

    /** reset: nothing is held. */
    method Reset()
      requires Valid()
      modifies this
      ensures Valid() && GetPressed() == {}
      ensures forall k :: !IsPressed(k)
    {
      pressed := map[];
    }
  }

  /** On values: the pressed set after pressing and releasing keys in turn. */
  function Apply(pressed: map<int, MarioKey>, key: MarioKey, down: bool): (r: map<int, MarioKey>)
    ensures down ==> key.code in r
    ensures !down ==> key.code !in r
    ensures forall c :: c != key.code ==> (c in r <==> c in pressed) && (c in r ==> r[c] == pressed[c])
  {
    if down then (if key.code in pressed then pressed else pressed[key.code := key])
    else pressed - {key.code}
  }

  /** Pressing then releasing a key that was not held leaves the set as it was, and
      pressing twice is the same as pressing once. */
  lemma PressReleaseRoundTrip(pressed: map<int, MarioKey>, key: MarioKey)
    ensures key.code !in pressed ==> Apply(Apply(pressed, key, true), key, false) == pressed
    ensures Apply(Apply(pressed, key, true), key, true) == Apply(pressed, key, true)
    ensures Apply(Apply(pressed, key, false), key, false) == Apply(pressed, key, false)
  {
    if key.code !in pressed {
      var r := Apply(Apply(pressed, key, true), key, false);
      assert r.Keys == pressed.Keys;
    }
  }
}
