/**
 * The message list's two pieces of logic: the colour a user name gets (a string
 * hash folded over the name's UTF-16 code units with JavaScript's 32-bit shift,
 * reduced into a ten-entry palette) and the test that marks a message as one's own.
 */
module MessageList {
  import opened Wrappers
  import opened JsPrimitives
  import opened WebSocketHook

  const Palette: seq<string> := [
    "text-red-500", "text-blue-500", "text-green-500", "text-yellow-500", "text-purple-500",
    "text-pink-500", "text-indigo-500", "text-cyan-500", "text-orange-500", "text-teal-500"
  ]

  /**
   * One turn of the loop: `code + ((hash << 5) - hash)`, with `<<` working on 32 bits.
   * Up to multiples of 2^32 this is `31 * hash + code`.
   */
  function HashStep(hash: int, code: int): (h: int)
    ensures (h - (31 * hash + code)) % Two32 == 0
    ensures -Two31 <= h - code + hash < Two31
  {
    code + (ShiftLeft5(hash) - hash)
  }

  /**
   * The value of `hash` once the loop has visited every code unit of `units`, starting
   * from 0. Each turn adds less than 2^31 + 2^16 in magnitude, so for 16-bit units the
   * hash of n units stays within n * (2^31 + 65535).
   */
  function Hash(units: seq<int>): (h: int)
    ensures (forall k :: 0 <= k < |units| ==> 0 <= units[k] < 0x1_0000) ==>
              -|units| * (Two31 + 0xFFFF) <= h <= |units| * (Two31 + 0xFFFF)
  {
    if units == [] then 0 else HashStep(Hash(units[..|units| - 1]), units[|units| - 1])
  }

  /**
   * For names of at most 2^21 code units the hash stays an integer below 2^53 in
   * magnitude, the range in which JavaScript's doubles hold integers exactly.
   */
  lemma HashFitsDoubles(username: string)
    requires |Utf16(username)| <= 0x20_0000
    ensures -0x20_0000_0000_0000 < Hash(Utf16(username)) < 0x20_0000_0000_0000
  {
    var u := Utf16(username);
    assert |u| * (Two31 + 0xFFFF) <= 0x20_0000 * (Two31 + 0xFFFF);
  }

  function Abs(x: int): nat {
    if x < 0 then -x else x
  }

  /** `Math.abs(hash) % colors.length`: always an index of the palette. */
  function ColorIndex(hash: int): (k: nat)
    ensures k < |Palette|
  {
    Abs(hash) % |Palette|
  }

  /** The colour of a name, as a function of the name alone. */
  function UsernameColor(username: string): (c: string)
    ensures c in Palette
  {
    Palette[ColorIndex(Hash(Utf16(username)))]
  }

  /** The empty name hashes to 0 and gets the first colour. */
  lemma EmptyNameIsRed()
    ensures Hash(Utf16("")) == 0 && UsernameColor("") == "text-red-500"
  {
  }

  /** The `for` loop over the code units. */
  method UsernameHash(units: seq<int>) returns (hash: int)
    ensures hash == Hash(units)
  {
    hash := 0;
    var i := 0;
    while i < |units|
      invariant 0 <= i <= |units|
      invariant hash == Hash(units[..i])
    {
      assert units[..i + 1][..i] == units[..i];
      hash := HashStep(hash, units[i]);
      i := i + 1;
    }
    assert units[..i] == units;
  }

  /** `getUsernameColor`: one of the ten palette entries, and the same one for the same name. */
  method GetUsernameColor(username: string) returns (color: string)
    ensures color in Palette
    ensures color == UsernameColor(username)
  {
    var hash := UsernameHash(Utf16(username));
    color := Palette[ColorIndex(hash)];
  }

  /** `message.userId === currentUserId`, where either side may be `undefined`. */
  function IsOwnMessage(userId: Option<string>, currentUserId: Option<string>): (own: bool)
    ensures userId == None && currentUserId == None ==> own
    ensures userId.Some? != currentUserId.Some? ==> !own
  {
    userId == currentUserId
  }

  /**
   * No message the socket handler logs carries a user id, so the list draws all of
   * them as one's own when the page passes no `currentUserId`, and none of them
   * when it passes one.
   */
  lemma LoggedMessagesOwnership(v: View, ev: Inbound, ts: string, currentUserId: Option<string>)
    requires forall k :: 0 <= k < |v.messages| ==> v.messages[k].userId == None
    ensures var w := Dispatch(v, ev, ts);
      forall k :: 0 <= k < |w.messages| ==>
        (IsOwnMessage(w.messages[k].userId, currentUserId) <==> currentUserId == None)
  {
    var w := Dispatch(v, ev, ts);
    forall k | 0 <= k < |w.messages|
      ensures w.messages[k].userId == None
    {
      if k < |v.messages| {
        assert w.messages[k] == v.messages[k];
      }
    }
  }
}
