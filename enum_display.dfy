/** The display form of the backend's status and priority enums. */
module EnumDisplay {
  import opened Wrappers
  import opened Text
  import opened Entities

  /** An option of a status or priority picker. */
  datatype EnumOption = EnumOption(id: string, name: string)

  /** `word.charAt(0) + word.slice(1).toLowerCase()` */
  function WordCase(w: string): (r: string)
    ensures |r| == |w|
    ensures |w| > 0 ==> r[0] == w[0]
    ensures forall i :: 0 < i < |w| ==> r[i] == LowerChar(w[i])
  {
    if w == [] then [] else [w[0]] + Lower(w[1..])
  }

  /** `.map((word) => ...)` with the casing above. */
  function CasedWords(parts: seq<string>): (r: seq<string>)
    ensures |r| == |parts|
    ensures forall i :: 0 <= i < |r| ==> r[i] == WordCase(parts[i])
  {
    seq(|parts|, i requires 0 <= i < |parts| => WordCase(parts[i]))
  }

  /** The name of a status: split at "_", each word cased as above, joined with " ". */
  function StatusDisplayName(id: string): string {
    Join(CasedWords(Split(id, '_')), ' ')
  }

  /** `getAllStatuses`: one option per listed status, in order, keeping the enum string as `id`. */
  function StatusOptions(statuses: seq<string>): (r: seq<EnumOption>)
    ensures |r| == |statuses|
    ensures forall i :: 0 <= i < |r| ==> r[i].id == statuses[i] && r[i].name == StatusDisplayName(statuses[i])
  {
    seq(|statuses|, i requires 0 <= i < |statuses| => EnumOption(statuses[i], StatusDisplayName(statuses[i])))
  }

  /** `getAllPriorities`: one option per listed priority, in order. */
  function PriorityOptions(priorities: seq<string>): (r: seq<EnumOption>)
    ensures |r| == |priorities|
    ensures forall i :: 0 <= i < |r| ==> r[i].id == priorities[i] && r[i].name == WordCase(priorities[i])
    ensures forall i :: 0 <= i < |r| ==> |r[i].name| == |r[i].id|
  {
    seq(|priorities|, i requires 0 <= i < |priorities| => EnumOption(priorities[i], WordCase(priorities[i])))
  }

  lemma WordCaseKeepsChar(w: string, c: char)
    requires c !in w && LowerChar(c) == c && (forall x :: LowerChar(x) == c ==> x == c)
    ensures c !in WordCase(w)
  {
  }

  /** A status name contains no "_". */
  lemma StatusNameHasNoUnderscore(id: string)
    ensures '_' !in StatusDisplayName(id)
  {
    var parts := Split(id, '_');
    var words := CasedWords(parts);
    SplitPiecesLackSeparator(id, '_');
    forall i | 0 <= i < |words|
      ensures '_' !in words[i]
    {
      WordCaseKeepsChar(parts[i], '_');
    }
    JoinChars(words, ' ', '_');
  }

  /** For an id without spaces the name has one space-separated word per
      "_"-separated part of the id, and each word is that part cased. */
  lemma StatusNameWords(id: string)
    requires ' ' !in id
    ensures |Split(StatusDisplayName(id), ' ')| == |Split(id, '_')|
    ensures forall i :: 0 <= i < |Split(id, '_')| ==> Split(StatusDisplayName(id), ' ')[i] == WordCase(Split(id, '_')[i])
  {
    var parts := Split(id, '_');
    var words := CasedWords(parts);
    forall i | 0 <= i < |parts|
      ensures ' ' !in words[i]
    {
      assert forall j :: 0 <= j < |parts[i]| ==> parts[i][j] in id by {
        SplitPiecesInSource(id, '_', i);
      }
      WordCaseKeepsChar(parts[i], ' ');
    }
    SplitJoin(words, ' ');
  }

  /** Every character of a piece of `Split(s, d)` occurs in `s`. */
  lemma {:induction false} SplitPiecesInSource(s: string, d: char, i: nat)
    requires i < |Split(s, d)|
    ensures forall c :: c in Split(s, d)[i] ==> c in s
    decreases |s|
  {
    if s != [] {
      var rest := Split(s[1..], d);
      if s[0] == d {
        if i > 0 {
          SplitPiecesInSource(s[1..], d, i - 1);
        }
      } else {
        SplitPiecesInSource(s[1..], d, i);
      }
    }
  }

  /** A one-word status displays as that word cased. */
  lemma OneWordName(id: string)
    requires '_' !in id
    ensures StatusDisplayName(id) == WordCase(id)
  {
    SplitWithoutSeparator(id, '_');
  }

  /** A two-word status displays as its two words cased, joined by a space. */
  lemma TwoWordName(first: string, second: string)
    requires '_' !in first && '_' !in second
    ensures StatusDisplayName(first + "_" + second) == WordCase(first) + " " + WordCase(second)
  {
    var parts := [first, second];
    assert first + "_" + second == Join(parts, '_');
    SplitJoin(parts, '_');
    var words := CasedWords(parts);
    assert Join(words, ' ') == WordCase(first) + " " + WordCase(second);
  }

  /** "PENDING" displays as "Pending" (with `OneWordName`). */
  lemma PendingWord()
    ensures WordCase("PENDING") == "Pending"
  {
    assert "PENDING"[1..] == "ENDING";
    assert LowerChar('E') == 'e' && LowerChar('N') == 'n' && LowerChar('D') == 'd' && LowerChar('I') == 'i';
    assert LowerChar('G') == 'g';
    LowerOf("ENDING", "ending");
  }

  /** "COMPLETED" displays as "Completed" (with `OneWordName`). */
  lemma CompletedWord()
    ensures WordCase("COMPLETED") == "Completed"
  {
    assert "COMPLETED"[1..] == "OMPLETED";
    assert LowerChar('O') == 'o' && LowerChar('M') == 'm' && LowerChar('P') == 'p' && LowerChar('L') == 'l';
    assert LowerChar('E') == 'e' && LowerChar('T') == 't' && LowerChar('D') == 'd';
    LowerOf("OMPLETED", "ompleted");
  }

  /** "IN_PROGRESS" displays as "In Progress" (with `TwoWordName`). */
  lemma InProgressWords()
    ensures WordCase("IN") == "In" && WordCase("PROGRESS") == "Progress"
  {
    assert "IN"[1..] == "N";
    assert LowerChar('N') == 'n';
    LowerOf("N", "n");
    assert "PROGRESS"[1..] == "ROGRESS";
    assert LowerChar('R') == 'r' && LowerChar('O') == 'o' && LowerChar('G') == 'g' && LowerChar('E') == 'e';
    assert LowerChar('S') == 's';
    LowerOf("ROGRESS", "rogress");
  }

  /** The backend's priority LOW displays as "Low". */
  lemma LowWord()
    ensures WordCase("LOW") == "Low"
  {
    assert "LOW"[1..] == "OW";
    assert LowerChar('O') == 'o' && LowerChar('W') == 'w';
    LowerOf("OW", "ow");
  }

  /** The backend's priority MEDIUM displays as "Medium". */
  lemma MediumWord()
    ensures WordCase("MEDIUM") == "Medium"
  {
    assert "MEDIUM"[1..] == "EDIUM";
    assert LowerChar('E') == 'e' && LowerChar('D') == 'd' && LowerChar('I') == 'i' && LowerChar('U') == 'u';
    assert LowerChar('M') == 'm';
    LowerOf("EDIUM", "edium");
  }

  /** The backend's priority HIGH displays as "High". */
  lemma HighWord()
    ensures WordCase("HIGH") == "High"
  {
    assert "HIGH"[1..] == "IGH";
    assert LowerChar('I') == 'i' && LowerChar('G') == 'g' && LowerChar('H') == 'h';
    LowerOf("IGH", "igh");
  }

  const CreateUnsupported: string := "Creating priorities is not supported by the backend"
  const UpdateUnsupported: string := "Updating priorities is not supported by the backend"
  const DeleteUnsupported: string := "Deleting priorities is not supported by the backend"

  /** `createPriority`, `updatePriority` and `deletePriority` always throw. */
  datatype PriorityChange = CreatePriority | UpdatePriority | DeletePriority

  function ChangePriority(change: PriorityChange): (r: Result<EnumOption, string>)
    ensures r.Failure?
    ensures change.CreatePriority? ==> r.error == CreateUnsupported
    ensures change.UpdatePriority? ==> r.error == UpdateUnsupported
    ensures change.DeletePriority? ==> r.error == DeleteUnsupported
  {
    match change
    case CreatePriority => Failure(CreateUnsupported)
    case UpdatePriority => Failure(UpdateUnsupported)
    case DeletePriority => Failure(DeleteUnsupported)
  }
}
