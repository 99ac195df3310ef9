/**
 File names of the spool directories. `SpoolNumber` is the only reader of a
 name that `SpoolName` writes, so a name identifies its build and nothing else.
 */
module SpoolNames {
  import opened Text

  const MAX_BUILD := 2147483647

  function SpoolName(number: nat): string {
    "build-" + Format(number) + ".json"
  }

  function SpoolNumber(name: string): Option<int> {
    if !HasPrefix(name, "build-") || !HasSuffix(name, ".json") || |name| < 11 then None
    else
      var raw := name[6..|name| - 5];
      match ParseInt(raw)
      case None => None
      case Some(n) => if 0 < n <= MAX_BUILD && Format(n) == raw then Some(n) else None
  }

  /** File names in the order of a sorted directory listing: build-10.json comes before build-2.json. */
  predicate NameLess(a: int, b: int) {
    0 <= a && 0 <= b && LexLess(SpoolName(a), SpoolName(b))
  }

  lemma NamesAreOrdered(a: int, b: int)
    requires 0 <= a && 0 <= b && a != b
    ensures NameLess(a, b) || NameLess(b, a)
  {
    LexTotal(SpoolName(a), SpoolName(b));
    if SpoolName(a) == SpoolName(b) { NamesInjective(a, b); }
  }

  lemma NameOrderIsTransitive(a: int, b: int, c: int)
    requires NameLess(a, b) && NameLess(b, c)
    ensures NameLess(a, c)
  {
    LexTransitive(SpoolName(a), SpoolName(b), SpoolName(c));
  }

  /** What `inventory` makes of one directory entry; the state directory also holds two fixed names. */
  datatype Entry = Leftover | Own | Build(number: int) | Foreign

  datatype Directory = Input | State | Acks

  function Classify(dir: Directory, name: string): Entry {
    if HasPrefix(name, ".pending-") then Leftover
    else if dir == State && (name == ".lock" || name == "manifest.json") then Own
    else if dir == Input && HasSuffix(name, ".json.tmp") && SpoolNumber(name[..|name| - 4]).Some? then Leftover
    else match SpoolNumber(name)
         case Some(n) => Build(n)
         case None => Foreign
  }

  /** The reader accepts exactly the names the writer can produce, and returns the writer's number. */
  lemma NameRoundTrip(name: string, n: int)
    ensures SpoolNumber(name) == Some(n) <==> 0 < n <= MAX_BUILD && name == SpoolName(n)
  {
    if 0 < n <= MAX_BUILD && name == SpoolName(n) {
      DecimalRoundTrip(n);
      assert name[..6] == "build-";
      assert name[|name| - 5..] == ".json";
      assert name[6..|name| - 5] == Format(n);
    }
    if SpoolNumber(name) == Some(n) {
      var raw := name[6..|name| - 5];
      assert name == name[..6] + raw + name[|name| - 5..];
      assert name[..6] == "build-";
    }
  }

  lemma NamesInjective(a: nat, b: nat)
    requires SpoolName(a) == SpoolName(b)
    ensures a == b
  {
    var x, y := SpoolName(a), SpoolName(b);
    assert x[6..|x| - 5] == Format(a);
    assert y[6..|y| - 5] == Format(b);
    FormatInjective(a, b);
  }

  /** Only the state directory has files of its own, and which names are leftovers does not depend on builds. */
  lemma ClassifiedExactly(dir: Directory, name: string)
    ensures Classify(dir, name).Own? <==> dir == State && (name == ".lock" || name == "manifest.json")
    ensures HasPrefix(name, ".pending-") ==> Classify(dir, name).Leftover?
    ensures forall n | 0 < n <= 2147483647 && name == SpoolName(n) + ".tmp" :: Classify(dir, name) == if dir == Input then Leftover else Foreign
    ensures forall n :: Classify(dir, name) == Build(n) <==> 0 < n <= 2147483647 && name == SpoolName(n)
  {
    OwnNames(dir, name);
    forall n ensures Classify(dir, name) == Build(n) <==> 0 < n <= 2147483647 && name == SpoolName(n) {
      NameRoundTrip(name, n);
      if 0 < n <= 2147483647 && name == SpoolName(n) { WrittenNameIsListed(dir, n); }
    }
    forall n | 0 < n <= 2147483647 && name == SpoolName(n) + ".tmp" ensures Classify(dir, name) == if dir == Input then Leftover else Foreign {
      TemporaryName(dir, n);
    }
    hide SpoolNumber, SpoolName, HasPrefix, HasSuffix;
  }

  lemma OwnNames(dir: Directory, name: string)
    ensures Classify(dir, name).Own? <==> dir == State && (name == ".lock" || name == "manifest.json")
  {
    assert ".pending-"[1] == 'p' && ".lock"[1] == 'l' && "manifest.json"[0] == 'm' && ".pending-"[0] == '.';
  }

  lemma TemporaryName(dir: Directory, n: nat)
    requires 0 < n <= MAX_BUILD
    ensures Classify(dir, SpoolName(n) + ".tmp") == if dir == Input then Leftover else Foreign
  {
    var name := SpoolName(n) + ".tmp";
    NameRoundTrip(SpoolName(n), n);
    assert name[..|name| - 4] == SpoolName(n) && name[0] == 'b' && name[|name| - 1] == 'p';
    assert ".pending-"[0] == '.' && ".lock"[0] == '.' && "manifest.json"[0] == 'm';
    assert name == "build-" + Format(n) + ".json.tmp";
    assert HasSuffix(name, ".json.tmp");
    assert !HasSuffix(name, ".json") by { assert ".json"[4] == 'n'; }
  }

  /** A record or acknowledgement the worker writes is listed again as that build, in every directory. */
  lemma WrittenNameIsListed(dir: Directory, n: nat)
    requires 0 < n <= MAX_BUILD
    ensures Classify(dir, SpoolName(n)) == Build(n)
  {
    var name := SpoolName(n);
    NameRoundTrip(name, n);
    assert name[0] == 'b';
    assert !HasPrefix(name, ".pending-") by { assert ".pending-"[0] == '.'; }
    assert name != ".lock" && name != "manifest.json" by {
      assert ".lock"[0] == '.' && "manifest.json"[0] == 'm';
    }
    assert name[|name| - 1] == 'n';
  }
}
