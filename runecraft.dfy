/** The runecraft plugin's event handlers: the binding-necklace charge
    counter driven by server chat messages, the set of abyss rift objects
    currently spawned, and the per-tick dark mage / degraded pouch state.
    Game objects are reduced to what the handlers look at; what the
    client's queries and the plugin's configuration answer is passed in. */
module Runecraft {
  import opened JavaLang

  datatype ChatMessageType = Server | OtherType(name: string)

  datatype ChatMessage = ChatMessage(messageType: ChatMessageType, message: string)

  datatype GameState = Unknown | Starting | LoginScreen | LoggingIn | Loading | LoggedIn | ConnectionLost | Hopping

  /** A decorative object: `handle` tells apart distinct objects that share an id. */
  datatype DecorativeObject = DecorativeObject(handle: nat, id: int)

  datatype Npc = Npc(handle: nat, id: int)

  datatype Item = Item(id: int, quantity: int)

  /** The fixed text of the charges message up to its number, and from
      the number up to the final character, which the pattern leaves open
      (a `.` matching any character but a line terminator). */
  const ChargesPrefix: string := "You have "
  const ChargesSuffix: string := " " + "charges left before your Binding necklace disintegrates"

  const CraftText: string := "You bind the temple's power"
  const DisintegratedText: string := "Your Binding necklace has disintegrated."

  /** A new binding necklace holds this many charges. */
  const NecklaceCharges: Int32 := 17

  /** The characters the regular expression `.` does not match. */
  predicate IsLineTerminator(c: char) {
    c == '\n' || c == '\r' || c == '\U{0085}' || c == '\U{2028}' || c == '\U{2029}'
  }

  /** The length of the run of digits starting at `i`. */
  function DigitRun(s: string, i: nat): (n: nat)
    requires i <= |s|
    ensures i + n <= |s| && AllDigits(s[i..i + n])
    ensures i + n == |s| || !IsDigit(s[i + n])
    decreases |s| - i
  {
    if i < |s| && IsDigit(s[i]) then
      var n := 1 + DigitRun(s, i + 1);
      assert s[i..i + n] == [s[i]] + s[i + 1..i + n];
      n
    else 0
  }

  /** The charges pattern tried at position `i`; the number's digits when it
      matches there. Since the digit group is followed by a space, the only
      digit count the greedy `[0-9]+` can succeed with is the whole run. */
  function MatchAt(msg: string, i: nat): (g: Option<string>)
    requires i <= |msg|
    ensures g.Some? ==> AllDigits(g.value) && |g.value| > 0
  {
    var s := msg[i..];
    if !StartsWith(s, ChargesPrefix) then None
    else
      var d := |ChargesPrefix|;
      var n := DigitRun(s, d);
      var e := d + n;
      if n > 0 && StartsWith(s[e..], ChargesSuffix) && e + |ChargesSuffix| < |s|
         && !IsLineTerminator(s[e + |ChargesSuffix|])
      then Some(s[d..e])
      else None
  }

  /** `Matcher.find` from position `i`: the leftmost match. */
  function FindFrom(msg: string, i: nat): (g: Option<string>)
    requires i <= |msg|
    ensures g.Some? ==> AllDigits(g.value) && |g.value| > 0
    decreases |msg| - i
  {
    match MatchAt(msg, i)
    case Some(digits) => Some(digits)
    case None => if i < |msg| then FindFrom(msg, i + 1) else None
  }

  /** Group 1 of the first match of the charges pattern in `msg`. */
  function ChargesMatch(msg: string): (g: Option<string>)
    ensures g.Some? ==> AllDigits(g.value) && |g.value| > 0
  {
    FindFrom(msg, 0)
  }

  /** The names of the six combination runes. */
  const CombinationRunes: seq<string> := ["mud", "lava", "steam", "dust", "smoke", "mist"]

  /** The message names one of the combination runes. */
  predicate MentionsCombinationRune(msg: string): (b: bool)
    ensures b <==> exists k, i :: 0 <= k < |CombinationRunes| && OccursAt(msg, CombinationRunes[k], i)
  {
    ContainsAt(msg, "mud"); ContainsAt(msg, "lava"); ContainsAt(msg, "steam");
    ContainsAt(msg, "dust"); ContainsAt(msg, "smoke"); ContainsAt(msg, "mist");
    assert CombinationRunes[0] == "mud" && CombinationRunes[1] == "lava" && CombinationRunes[2] == "steam";
    assert CombinationRunes[3] == "dust" && CombinationRunes[4] == "smoke" && CombinationRunes[5] == "mist";
    Contains(msg, "mud") || Contains(msg, "lava") || Contains(msg, "steam")
    || Contains(msg, "dust") || Contains(msg, "smoke") || Contains(msg, "mist")
  }

  /** The necklace charge count after one chat message. A number too large
      for an `int` makes `Integer.parseInt` throw, which ends the handler
      before anything is assigned. */
  function ChargesAfter(charges: Int32, event: ChatMessage, showBindNeck: bool): Int32 {
    if event.messageType != Server || !showBindNeck then charges
    else match ChargesMatch(event.message)
      case Some(digits) =>
        (match ParseInt(digits)
         case Some(n) => n
         case None => charges)
      case None =>
        if Contains(event.message, CraftText) && MentionsCombinationRune(event.message) then Wrap32(charges - 1)
        else if Contains(event.message, DisintegratedText) then NecklaceCharges
        else charges
  }

  /** The charge count after a sequence of chat messages. */
  function ChargesAfterAll(charges: Int32, events: seq<ChatMessage>, showBindNeck: bool): Int32
    decreases |events|
  {
    if events == [] then charges
    else ChargesAfterAll(ChargesAfter(charges, events[0], showBindNeck), events[1..], showBindNeck)
  }

  /** The overlay that shows the charge count; the handler writes its field. */
  class BindNeckOverlay {
    var bindingCharges: Int32

    constructor (charges: Int32)
      ensures bindingCharges == charges
    {
      bindingCharges := charges;
    }
  }

  class RunecraftPlugin {
    const bindNeckOverlay: BindNeckOverlay
    /** The ids that the abyss rift table knows. */
    const riftIds: set<int>
    var abyssObjects: set<DecorativeObject>
    var degradedPouchInInventory: bool
    var darkMage: Option<Npc>

    /** Only rifts are tracked, and a dark mage is only ever held while a
        degraded pouch is in the inventory. */
    ghost predicate Valid()
      reads this
    {
      && (forall o :: o in abyssObjects ==> o.id in riftIds)
      && (darkMage.Some? ==> degradedPouchInInventory)
    }

    constructor (bindNeckOverlay: BindNeckOverlay, riftIds: set<int>)
      ensures Valid()
      ensures this.bindNeckOverlay == bindNeckOverlay && this.riftIds == riftIds
      ensures abyssObjects == {} && !degradedPouchInInventory && darkMage == None
    {
      this.bindNeckOverlay := bindNeckOverlay;
      this.riftIds := riftIds;
      abyssObjects := {};
      degradedPouchInInventory := false;
      darkMage := None;
    }

    method ShutDown()
      modifies this
      ensures Valid()
      ensures abyssObjects == {} && darkMage == None && !degradedPouchInInventory
    {
      abyssObjects := {};
      darkMage := None;
      degradedPouchInInventory := false;
    }

    method OnChatMessage(event: ChatMessage, showBindNeck: bool)
      modifies bindNeckOverlay
      ensures bindNeckOverlay.bindingCharges == ChargesAfter(old(bindNeckOverlay.bindingCharges), event, showBindNeck)
    {
      if event.messageType != Server || !showBindNeck {
        return;
      }
      var found := ChargesMatch(event.message);
      if found.Some? {
        var parsed := ParseInt(found.value);
        if parsed.None? {
          return;  // NumberFormatException
        }
        bindNeckOverlay.bindingCharges := parsed.value;
        return;
      }
      if Contains(event.message, CraftText) {
        if MentionsCombinationRune(event.message) {
          bindNeckOverlay.bindingCharges := Wrap32(bindNeckOverlay.bindingCharges - 1);
          return;
        }
      }
      if Contains(event.message, DisintegratedText) {
        bindNeckOverlay.bindingCharges := NecklaceCharges;
      }
    }

    method OnDecorativeObjectSpawn(obj: DecorativeObject)
      requires Valid()
      modifies this`abyssObjects
      ensures Valid()
      ensures abyssObjects == if obj.id in riftIds then old(abyssObjects) + {obj} else old(abyssObjects)
    {
      if obj.id in riftIds {
        abyssObjects := abyssObjects + {obj};
      }
    }

    method OnDecorativeObjectDespawned(obj: DecorativeObject)
      requires Valid()
      modifies this`abyssObjects
      ensures Valid()
      ensures abyssObjects == old(abyssObjects) - {obj}
    {
      abyssObjects := abyssObjects - {obj};
    }

    method OnGameStateChanged(state: GameState)
      requires Valid()
      modifies this`abyssObjects
      ensures Valid()
      ensures abyssObjects == if state == Loading then {} else old(abyssObjects)
    {
      if state == Loading {
        abyssObjects := {};
      }
    }

    /** `pouches` is what the inventory query for the degraded pouches
        returns (null when there is no inventory), `darkMages` what the
        dark mage query returns. */
    method OnGameTick(highlightDarkMage: bool, pouches: Option<seq<Item>>, darkMages: seq<Npc>)
      requires Valid()
      modifies this`darkMage, this`degradedPouchInInventory
      ensures Valid()
      ensures degradedPouchInInventory
           == if highlightDarkMage then pouches.Some? && |pouches.value| > 0 else old(degradedPouchInInventory)
      ensures darkMage.Some? <==> highlightDarkMage && degradedPouchInInventory && |darkMages| >= 1
      ensures darkMage.Some? ==> darkMage.value == darkMages[0]
    {
      darkMage := None;
      if !highlightDarkMage {
        return;
      }
      degradedPouchInInventory := pouches.Some? && |pouches.value| > 0;
      if degradedPouchInInventory {
        darkMage := if |darkMages| >= 1 then Some(darkMages[0]) else None;
      }
    }
  }

  // ---------------------------------------------------------------------
  // Properties of the charge counter

  /** Messages that are not server messages, and every message while the
      necklace counter is switched off, leave the count alone. */
  lemma IgnoredMessagesKeepCharges(charges: Int32, event: ChatMessage, showBindNeck: bool)
    requires event.messageType != Server || !showBindNeck
    ensures ChargesAfter(charges, event, showBindNeck) == charges
  {
  }

  /** The charges message for `n` charges: the fixed text around the
      number, the character the pattern's final `.` consumes, and whatever
      text follows. */
  function ChargesText(n: nat, last: char, post: string): (msg: string)
    ensures StartsWith(msg, ChargesPrefix)
  {
    ChargesPrefix + DecimalString(n) + ChargesSuffix + [last] + post
  }

  /** The charges message for any count, anchored at its start, matches
      with exactly the count's digits. */
  lemma ChargesTextMatches(n: nat, last: char, post: string)
    requires !IsLineTerminator(last)
    ensures MatchAt(ChargesText(n, last, post), 0) == Some(DecimalString(n))
  {
    var digits := DecimalString(n);
    var msg := ChargesText(n, last, post);
    var d := |ChargesPrefix|;
    Layout(ChargesPrefix, digits, ChargesSuffix, last, post);
    assert msg[0..] == msg;
    assert DigitRun(msg, d) == |digits| by {
      SuffixStartsWithSpace();
      DigitRunCovers(msg, d, |digits|);
    }
  }

  /** Where the parts of `a + b + c + [x] + rest` sit. */
  lemma Layout(a: string, b: string, c: string, x: char, rest: string)
    requires |c| > 0
    ensures var m := a + b + c + [x] + rest;
      && StartsWith(m, a)
      && m[|a|..|a| + |b|] == b
      && (forall k :: 0 <= k < |b| ==> m[|a| + k] == b[k])
      && m[|a| + |b|] == c[0]
      && StartsWith(m[|a| + |b|..], c)
      && |a| + |b| + |c| < |m| && m[|a| + |b| + |c|] == x
  {
    var m := a + b + c + [x] + rest;
    assert m[..|a|] == a;
    assert m[|a| + |b|..][..|c|] == c;
  }

  /** The pattern tried at the start of `t` behaves the same after any
      text placed in front of `t`. */
  lemma MatchAfterPrefix(pre: string, t: string)
    ensures MatchAt(pre + t, |pre|) == MatchAt(t, 0)
  {
    assert (pre + t)[|pre|..] == t;
    assert t[0..] == t;
  }

  /** `find` passes over positions where the pattern does not match. */
  lemma {:induction false} FindSkips(msg: string, i: nat, j: nat)
    requires i <= j <= |msg|
    requires forall k :: i <= k < j ==> MatchAt(msg, k).None?
    ensures FindFrom(msg, i) == FindFrom(msg, j)
    decreases j - i
  {
    if i < j {
      FindSkips(msg, i + 1, j);
    }
  }

  /** The charges message for any count that fits in an `int` sets the
      count to that number, whatever text follows it and whatever text
      precedes it without a match of its own: the first match is the one
      used, and once it is found the craft and disintegration rules are
      not consulted. */
  lemma ChargesMessageSetsCount(charges: Int32, pre: string, n: nat, last: char, post: string, showBindNeck: bool)
    requires n <= IntMax && !IsLineTerminator(last) && showBindNeck
    requires forall j :: 0 <= j < |pre| ==> MatchAt(pre + ChargesText(n, last, post), j).None?
    ensures ChargesAfter(charges, ChatMessage(Server, pre + ChargesText(n, last, post)), showBindNeck) == n
  {
    var t := ChargesText(n, last, post);
    ChargesTextMatches(n, last, post);
    MatchAfterPrefix(pre, t);
    FindSkips(pre + t, 0, |pre|);
    DecimalRoundTrip(n);
  }

  /** Text ending in a mud-rune craft report carries both parts of the
      craft rule's condition. */
  lemma CraftReportAtEnd(head: string)
    ensures Contains(head + CraftText + " mud", CraftText)
    ensures MentionsCombinationRune(head + CraftText + " mud")
  {
    var msg := head + CraftText + " mud";
    assert OccursAt(msg, CraftText, |head|) by {
      assert msg[|head|..|head| + |CraftText|] == CraftText;
    }
    ContainsAt(msg, CraftText);
    assert OccursAt(msg, "mud", |head| + |CraftText| + 1) by {
      assert msg[|head| + |CraftText| + 1..] == "mud";
    }
    ContainsAt(msg, "mud");
  }

  /** A charges message that also reports a mud-rune craft sets the count
      to its number; the craft does not lower it. */
  lemma ChargesMessageOutranksCraft(charges: Int32, n: nat, showBindNeck: bool)
    requires n <= IntMax && showBindNeck
    ensures var msg := ChargesText(n, '.', CraftText + " mud");
      && Contains(msg, CraftText) && MentionsCombinationRune(msg)
      && ChargesAfter(charges, ChatMessage(Server, msg), showBindNeck) == n
  {
    var head := ChargesPrefix + DecimalString(n) + ChargesSuffix + ".";
    assert ChargesText(n, '.', CraftText + " mud") == head + CraftText + " mud";
    CraftReportAtEnd(head);
    ChargesTextMatches(n, '.', CraftText + " mud");
    DecimalRoundTrip(n);
  }

  lemma SuffixStartsWithSpace()
    ensures ChargesSuffix[0] == ' ' && !IsDigit(ChargesSuffix[0])
  {
  }

  /** A digit run of length `n` at `i` followed by a non-digit is exactly
      what `DigitRun` measures. */
  lemma {:induction false} DigitRunCovers(s: string, i: nat, n: nat)
    requires i + n < |s| && !IsDigit(s[i + n])
    requires forall k :: i <= k < i + n ==> IsDigit(s[k])
    ensures DigitRun(s, i) == n
    decreases n
  {
    if n > 0 {
      DigitRunCovers(s, i + 1, n - 1);
    }
  }

  /** A message that does not contain the fixed start of the charges
      message never matches the charges pattern. */
  lemma {:induction false} NoPrefixNoMatch(msg: string, i: nat)
    requires i <= |msg| && !Contains(msg, ChargesPrefix)
    ensures FindFrom(msg, i).None?
    decreases |msg| - i
  {
    ContainsAt(msg, ChargesPrefix);
    if StartsWith(msg[i..], ChargesPrefix) {
      assert msg[i..][..|ChargesPrefix|] == msg[i..i + |ChargesPrefix|];
      assert OccursAt(msg, ChargesPrefix, i);
    }
    if i < |msg| {
      NoPrefixNoMatch(msg, i + 1);
    }
  }

  /** A combination-rune craft lowers the count by exactly one (with
      `int` wrap-around at the bottom of the range). */
  lemma CraftLowersCount(charges: Int32, event: ChatMessage)
    requires event.messageType == Server && ChargesMatch(event.message).None?
    requires Contains(event.message, CraftText) && MentionsCombinationRune(event.message)
    ensures ChargesAfter(charges, event, true) == Wrap32(charges - 1)
    ensures charges > IntMin ==> ChargesAfter(charges, event, true) == charges - 1
  {
  }

  /** The disintegration message, unless it is also a combination-rune
      craft, resets the count to a new necklace's 17 charges. */
  lemma DisintegrationResetsCount(charges: Int32, event: ChatMessage)
    requires event.messageType == Server && ChargesMatch(event.message).None?
    requires Contains(event.message, DisintegratedText)
    requires !(Contains(event.message, CraftText) && MentionsCombinationRune(event.message))
    ensures ChargesAfter(charges, event, true) == 17
  {
  }

  /** The message the game sends on each combination-rune craft. */
  predicate IsCraft(event: ChatMessage) {
    && event.messageType == Server
    && ChargesMatch(event.message).None?
    && Contains(event.message, CraftText)
    && MentionsCombinationRune(event.message)
  }

  /** A run of `k` combination-rune crafts uses up exactly `k` charges. */
  lemma {:induction false} CraftsCountDown(charges: Int32, events: seq<ChatMessage>)
    requires forall i :: 0 <= i < |events| ==> IsCraft(events[i])
    requires charges - |events| >= IntMin
    ensures ChargesAfterAll(charges, events, true) == charges - |events|
    decreases |events|
  {
    if events != [] {
      var rest := events[1..];
      assert forall i :: 0 <= i < |rest| ==> rest[i] == events[i + 1];
      CraftLowersCount(charges, events[0]);
      assert ChargesAfter(charges, events[0], true) == charges - 1;
      CraftsCountDown(charges - 1, rest);
    }
  }

  /** A despawn undoes the spawn of an object that was not tracked yet. */
  method DespawnUndoesSpawn(plugin: RunecraftPlugin, obj: DecorativeObject)
    requires plugin.Valid() && obj !in plugin.abyssObjects
    modifies plugin`abyssObjects
    ensures plugin.Valid() && plugin.abyssObjects == old(plugin.abyssObjects)
  {
    plugin.OnDecorativeObjectSpawn(obj);
    plugin.OnDecorativeObjectDespawned(obj);
  }
}
