/**
 * The helpers beside the mock conversations: lookup by id, the initials
 * shown in an avatar, and the avatar colour chosen from the first letter.
 */
module MockMessages {
  import opened Wrappers

  datatype Message = Message(id: string, senderId: string, text: string, read: bool)

  datatype Conversation = Conversation(
    id: string, matchId: string, matchName: string, matchAge: int,
    lastMessage: string, unreadCount: nat, isOnline: bool, messages: seq<Message>)

  /** `conversations.find(conv => conv.id === id)`: the first conversation with that id. */
  function GetConversationById(conversations: seq<Conversation>, id: string): (r: Option<Conversation>)
    ensures r.None? <==> forall k :: 0 <= k < |conversations| ==> conversations[k].id != id
    ensures r.Some? ==> exists k :: 0 <= k < |conversations| && conversations[k] == r.value && r.value.id == id
                                    && forall j :: 0 <= j < k ==> conversations[j].id != id
  {
    if conversations == [] then None
    else if conversations[0].id == id then Some(conversations[0])
    else
      var r := GetConversationById(conversations[1..], id);
      assert forall k :: 1 <= k < |conversations| ==> conversations[k] == conversations[1..][k - 1];
      r
  }

  /** `name.split(' ')`: the pieces between single spaces; repeated spaces give empty pieces. */
  function Split(name: string): (words: seq<string>)
    ensures |words| >= 1
  {
    if name == [] then [""]
    else if name[0] == ' ' then [""] + Split(name[1..])
    else
      var rest := Split(name[1..]);
      [[name[0]] + rest[0]] + rest[1..]
  }

  /** The inverse of `Split`: the pieces joined back with single spaces. */
  function JoinWithSpaces(words: seq<string>): string
    requires |words| >= 1
  {
    if |words| == 1 then words[0] else words[0] + " " + JoinWithSpaces(words[1..])
  }

  /** Splitting loses nothing: the pieces hold no space, and joining them with spaces gives back the name. */
  lemma {:induction false} SplitRoundTrip(name: string)
    ensures JoinWithSpaces(Split(name)) == name
    ensures forall i :: 0 <= i < |Split(name)| ==> ' ' !in Split(name)[i]
  {
    if name != [] {
      var rest := Split(name[1..]);
      SplitRoundTrip(name[1..]);
      if name[0] == ' ' {
        assert Split(name) == [""] + rest;
        assert Split(name)[1..] == rest;
        assert name == " " + name[1..];
      } else {
        var first := [name[0]] + rest[0];
        assert Split(name) == [first] + rest[1..];
        assert Split(name)[1..] == rest[1..];
        if |rest| == 1 {
          assert name == [name[0]] + rest[0];
        } else {
          assert JoinWithSpaces(rest) == rest[0] + " " + JoinWithSpaces(rest[1..]);
          assert name == [name[0]] + (rest[0] + " " + JoinWithSpaces(rest[1..]));
        }
        forall i | 0 <= i < |Split(name)|
          ensures ' ' !in Split(name)[i]
        {
          if i > 0 {
            assert Split(name)[i] == rest[i];
          }
        }
      }
    }
  }

  /** `word[0]`, where the first character of an empty word is `undefined` and joins as nothing. */
  function Initial(word: string): string {
    if word == [] then "" else [word[0]]
  }

  /** `.map(word => word[0]).join('')`. */
  function Initials(words: seq<string>): string {
    if words == [] then "" else Initial(words[0]) + Initials(words[1..])
  }

  /** `toUpperCase` on one character; only the ASCII letters are mapped. */
  function UpperChar(c: char): char {
    if 'a' <= c <= 'z' then (c as int - 'a' as int + 'A' as int) as char else c
  }

  function Upper(s: string): (r: string)
    ensures |r| == |s| && forall i :: 0 <= i < |s| ==> r[i] == UpperChar(s[i])
  {
    if s == [] then [] else [UpperChar(s[0])] + Upper(s[1..])
  }

  /** `getInitials`: at most two initials, and none exactly when the name is blank. */
  function GetInitials(name: string): (r: string)
    ensures |r| <= 2
    ensures r == [] <==> forall i :: 0 <= i < |name| ==> name[i] == ' '
  {
    InitialsAreWordStarts(name);
    NoStartsIffBlank(name);
    var all := Upper(Initials(Split(name)));
    if |all| <= 2 then all else all[..2]
  }

  /** A name has no word start exactly when it is all spaces. */
  lemma {:induction false} NoStartsIffBlank(name: string)
    ensures WordStarts(name, true) == "" <==> forall i :: 0 <= i < |name| ==> name[i] == ' '
  {
    if name != [] {
      NoStartsIffBlank(name[1..]);
      if name[0] == ' ' {
        assert forall i :: 0 < i < |name| ==> name[i] == name[1..][i - 1];
      }
    }
  }

  /**
   * The characters that begin a word, read straight off the name: a
   * non-space character at the start or right after a space. `afterSpace`
   * says whether the previous character was a space (or there was none).
   */
  function WordStarts(name: string, afterSpace: bool): string {
    if name == [] then ""
    else (if afterSpace && name[0] != ' ' then [name[0]] else "") + WordStarts(name[1..], name[0] == ' ')
  }

  /** Splitting on spaces and taking each word's first character picks exactly the word starts. */
  lemma {:induction false} InitialsAreWordStarts(name: string)
    ensures Initials(Split(name)) == WordStarts(name, true)
    ensures Initials(Split(name)[1..]) == WordStarts(name, false)
  {
    if name != [] {
      var rest := Split(name[1..]);
      InitialsAreWordStarts(name[1..]);
      if name[0] == ' ' {
        assert Split(name) == [""] + rest;
        assert Split(name)[1..] == rest;
      } else {
        var first := [name[0]] + rest[0];
        assert Split(name) == [first] + rest[1..];
        assert Split(name)[1..] == rest[1..];
        assert Initial(first) == [name[0]];
      }
    }
  }

  /** The initials are the word starts, upper-cased, cut to two characters. */
  lemma GetInitialsSpec(name: string)
    ensures var starts := Upper(WordStarts(name, true));
            GetInitials(name) == if |starts| <= 2 then starts else starts[..2]
    ensures |GetInitials(name)| <= 2
  {
    InitialsAreWordStarts(name);
  }

  /** A name without spaces has only its first character as a word start. */
  lemma {:induction false} NoSpaceNoLaterStarts(name: string)
    requires forall i :: 0 <= i < |name| ==> name[i] != ' '
    ensures WordStarts(name, false) == ""
  {
    if name != [] {
      NoSpaceNoLaterStarts(name[1..]);
    }
  }

  /** A single-word name yields its first character upper-cased. */
  lemma SingleWordInitials(name: string)
    requires name != [] && forall i :: 0 <= i < |name| ==> name[i] != ' '
    ensures GetInitials(name) == [UpperChar(name[0])]
  {
    InitialsAreWordStarts(name);
    NoSpaceNoLaterStarts(name[1..]);
    assert WordStarts(name, true) == [name[0]];
  }

  /** Repeated and leading spaces contribute nothing: " jo  an" has initials "JA". */
  lemma InitialsExample()
    ensures GetInitials(" jo  an") == "JA"
  {
    GetInitialsSpec(" jo  an");
    assert WordStarts("", false) == "";
    assert WordStarts("n", false) == "";
    assert WordStarts("an", true) == "a";
    assert WordStarts(" an", true) == "a";
    assert WordStarts("  an", false) == "a";
    assert WordStarts("o  an", false) == "a";
    assert WordStarts("jo  an", true) == "ja";
    assert WordStarts(" jo  an", true) == "ja";
    assert Upper("ja") == "JA";
  }

  const Palette: seq<string> := ["#8b5cf6", "#ec4899", "#f59e0b", "#10b981", "#3b82f6", "#ef4444", "#14b8a6", "#f97316"]

  /**
   * `colors[name.charCodeAt(0) % colors.length]`. For the empty name
   * `charCodeAt(0)` is NaN and the lookup yields `undefined`.
   */
  function GetAvatarColor(name: string): (color: Option<string>)
    ensures color.None? <==> name == []
    ensures color.Some? ==> color.value in Palette
  {
    if name == [] then None else Some(Palette[(name[0] as int) % |Palette|])
  }

  /** The colour sits at index `charCode(name[0]) % 8`, so it depends only on the first character. */
  lemma AvatarColorByFirstChar(a: string, b: string)
    requires a != [] && b != [] && a[0] == b[0]
    ensures GetAvatarColor(a) == GetAvatarColor(b) == Some(Palette[(a[0] as int) % 8])
  {
  }
}
