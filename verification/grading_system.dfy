/**
 * The student grading demo: a threshold function from score to letter
 * grade, and the reader that turns the lines of a student file into
 * students, rejecting the first malformed line with a typed error.
 *
 * A file is given as its sequence of lines. Integers are read by a plain
 * signed-decimal parser (an optional sign and one or more digits).
 */
module GradingSystem {
  import opened Wrappers

  datatype Student = Student(id: int, fullName: string, score: int)

  /** Student.GetGrade: the "A" band is bounded above by 100, the others are not. */
  function GetGrade(student: Student): (grade: string)
    ensures grade in ["A", "B", "C", "D", "F"]
    ensures grade == "A" <==> 80 <= student.score <= 100
    ensures grade == "F" <==> student.score < 50
  {
    var score := student.score;
    if score >= 80 && score <= 100 then "A"
    else if score >= 70 then "B"
    else if score >= 60 then "C"
    else if score >= 50 then "D"
    else "F"
  }

  /** A grading by bands of ten that does not depend on the order of the comparisons: the reference scale. */
  function GradeByTens(score: int): string {
    var tens := score / 10;
    if tens >= 8 then "A"
    else if tens == 7 then "B"
    else if tens == 6 then "C"
    else if tens == 5 then "D"
    else "F"
  }

  /** Up to 100 the grade is the band of tens the score falls in. */
  lemma GradeUpToHundred(student: Student)
    requires student.score <= 100
    ensures GetGrade(student) == GradeByTens(student.score)
  {
  }

  /** Every score above 100 fails the "A" comparison and is graded "B", against the reference scale. */
  lemma GradeAboveHundred(student: Student)
    requires student.score > 100
    ensures GetGrade(student) == "B" && GradeByTens(student.score) == "A"
  {
  }

  /** The bands spelled out: 80..100 A, 70..79 B, 60..69 C, 50..59 D, below 50 F. */
  lemma GradeBands(student: Student)
    ensures 80 <= student.score <= 100 <==> GetGrade(student) == "A"
    ensures (70 <= student.score < 80 || student.score > 100) <==> GetGrade(student) == "B"
    ensures 60 <= student.score < 70 <==> GetGrade(student) == "C"
    ensures 50 <= student.score < 60 <==> GetGrade(student) == "D"
    ensures student.score < 50 <==> GetGrade(student) == "F"
  {
  }

  // ---------------- Characters, trimming and splitting ----------------

  /** The white-space characters Trim removes and IsNullOrWhiteSpace accepts. */
  predicate IsWhiteSpace(c: char) {
    c == ' ' || c == '\t' || c == '\n' || c == '\r' || c == '\U{B}' || c == '\U{C}' || c == '\U{A0}'
  }

  /** string.IsNullOrWhiteSpace for a string that is not null. */
  predicate IsBlank(s: string) {
    forall i :: 0 <= i < |s| ==> IsWhiteSpace(s[i])
  }

  function TrimStart(s: string): (r: string)
    ensures |r| <= |s| && r == s[|s| - |r|..]
    ensures forall i :: 0 <= i < |s| - |r| ==> IsWhiteSpace(s[i])
    ensures r == [] || !IsWhiteSpace(r[0])
  {
    if s != [] && IsWhiteSpace(s[0]) then TrimStart(s[1..]) else s
  }

  function TrimEnd(s: string): (r: string)
    ensures |r| <= |s| && r == s[..|r|]
    ensures forall i :: |r| <= i < |s| ==> IsWhiteSpace(s[i])
    ensures r == [] || !IsWhiteSpace(r[|r| - 1])
  {
    if s != [] && IsWhiteSpace(s[|s| - 1]) then TrimEnd(s[..|s| - 1]) else s
  }

  /** string.Trim: drop leading and trailing white space. */
  function Trim(s: string): (r: string)
    ensures |r| <= |s|
    ensures r == [] || (!IsWhiteSpace(r[0]) && !IsWhiteSpace(r[|r| - 1]))
    ensures r == [] <==> IsBlank(s)
  {
    TrimEnd(TrimStart(s))
  }

  /** string.Split(','): the parts between commas, empty parts included. */
  function Split(s: string): (parts: seq<string>)
    ensures |parts| >= 1
    ensures forall i :: 0 <= i < |parts| ==> ',' !in parts[i]
  {
    if s == [] then [""]
    else
      var rest := Split(s[1..]);
      if s[0] == ',' then [""] + rest
      else [[s[0]] + rest[0]] + rest[1..]
  }

  /** string.Join(",", parts), the inverse of Split. */
  function Join(parts: seq<string>): string
    requires |parts| >= 1
  {
    if |parts| == 1 then parts[0] else parts[0] + "," + Join(parts[1..])
  }

  /** Splitting a joined list of comma-free parts gives the parts back. */
  lemma {:induction false} SplitJoin(parts: seq<string>)
    requires |parts| >= 1
    requires forall i :: 0 <= i < |parts| ==> ',' !in parts[i]
    ensures Split(Join(parts)) == parts
  {
    if |parts| == 1 {
      SplitCommaFree(parts[0]);
    } else {
      SplitJoin(parts[1..]);
      SplitAfterCommaFree(parts[0], Join(parts[1..]));
    }
  }

  /** Joining the parts of any split gives the string back. */
  lemma {:induction false} JoinSplit(s: string)
    ensures Join(Split(s)) == s
  {
    if s != [] {
      JoinSplit(s[1..]);
      var rest := Split(s[1..]);
      if s[0] != ',' {
        if |rest| > 1 {
          assert ([[s[0]] + rest[0]] + rest[1..])[1..] == rest[1..];
        }
      } else {
        assert ([""] + rest)[1..] == rest;
      }
    }
  }

  lemma {:induction false} SplitCommaFree(a: string)
    requires ',' !in a
    ensures Split(a) == [a]
  {
    if a != [] {
      assert ',' !in a[1..];
      SplitCommaFree(a[1..]);
      assert [a[0]] + a[1..] == a;
    }
  }

  lemma {:induction false} SplitAfterCommaFree(a: string, b: string)
    requires ',' !in a
    ensures Split(a + "," + b) == [a] + Split(b)
  {
    if a == [] {
      assert a + "," + b == [','] + b;
      assert ([','] + b)[1..] == b;
    } else {
      assert (a + "," + b)[1..] == a[1..] + "," + b;
      assert ',' !in a[1..];
      SplitAfterCommaFree(a[1..], b);
      assert [a[0]] + a[1..] == a;
    }
  }

  // ---------------- Integers ----------------

  predicate IsDigit(c: char) {
    '0' <= c <= '9'
  }

  predicate AllDigits(s: string) {
    forall i :: 0 <= i < |s| ==> IsDigit(s[i])
  }

  /** The value of a string of decimal digits. */
  function DigitsValue(s: string): nat
    requires AllDigits(s)
  {
    if s == [] then 0
    else DigitsValue(s[..|s| - 1]) * 10 + (s[|s| - 1] as int - '0' as int)
  }

  /** int.Parse / int.TryParse on a trimmed string: an optional sign, then one or more digits. */
  function ParseInt(s: string): (r: Option<int>)
    ensures r.Some? ==> |s| >= 1
    ensures r.Some? ==> forall i :: 0 <= i < |s| ==> !IsWhiteSpace(s[i]) && s[i] != ','
  {
    if |s| > 1 && (s[0] == '-' || s[0] == '+') && AllDigits(s[1..]) then
      var magnitude: int := DigitsValue(s[1..]);
      Some(if s[0] == '-' then -magnitude else magnitude)
    else if |s| > 0 && AllDigits(s) then
      Some(DigitsValue(s))
    else
      None
  }

  /** The decimal digits of n without leading zeros. */
  function NatToString(n: nat): (s: string)
    ensures |s| >= 1 && AllDigits(s)
  {
    var digit := ['0' + (n % 10) as char];
    if n < 10 then digit else NatToString(n / 10) + digit
  }

  /** How an int is written into the student file. */
  function IntToString(n: int): (s: string)
    ensures |s| >= 1 && ',' !in s
    ensures !IsWhiteSpace(s[0]) && !IsWhiteSpace(s[|s| - 1])
  {
    if n < 0 then "-" + NatToString(-n) else NatToString(n)
  }

  lemma {:induction false} NatToStringValue(n: nat)
    ensures DigitsValue(NatToString(n)) == n
  {
    if n >= 10 {
      NatToStringValue(n / 10);
      var s := NatToString(n);
      assert s[..|s| - 1] == NatToString(n / 10);
    }
  }

  /** Reading back a written int gives the int. */
  lemma IntToStringParses(n: int)
    ensures ParseInt(IntToString(n)) == Some(n)
  {
    var s := IntToString(n);
    if n < 0 {
      NatToStringValue(-n);
      var digits := NatToString(-n);
      assert s == "-" + digits && s[1..] == digits;
      assert |s| > 1 && s[0] == '-' && AllDigits(s[1..]);
    } else {
      NatToStringValue(n);
      assert s == NatToString(n) && IsDigit(s[0]);
    }
  }

  // ---------------- Reading student lines ----------------

  /** Why a MissingFieldException was thrown. */
  datatype MissingField = WrongFieldCount(line: string) | NameMissing

  /** Which field an InvalidScoreFormatException is about ("Invalid ID format" or "Invalid score format"). */
  datatype BadNumber = IdFormat(idText: string) | ScoreFormat(scoreText: string)

  /** The two exceptions the reader throws, with the 1-based line number. */
  datatype ReadError =
    | MissingFieldError(lineNumber: nat, missing: MissingField)
    | InvalidScoreFormatError(lineNumber: nat, bad: BadNumber)

  /**
   * The per-line rule of ReadStudentsFromFile, checks in source order:
   * field count, then id, then name, then score.
   */
  function ParseLine(line: string, lineNumber: nat): (r: Result<Student, ReadError>)
    ensures r.Failure? ==> r.error.lineNumber == lineNumber
  {
    var parts := Split(line);
    if |parts| != 3 then Failure(MissingFieldError(lineNumber, WrongFieldCount(line)))
    else match ParseInt(Trim(parts[0]))
      case None => Failure(InvalidScoreFormatError(lineNumber, IdFormat(parts[0])))
      case Some(id) =>
        var fullName := Trim(parts[1]);
        if IsBlank(fullName) then Failure(MissingFieldError(lineNumber, NameMissing))
        else match ParseInt(Trim(parts[2]))
          case None => Failure(InvalidScoreFormatError(lineNumber, ScoreFormat(parts[2])))
          case Some(score) => Success(Student(id, fullName, score))
  }

  /**
   * A line is accepted only with three parts, and the student is built from
   * the parsed trimmed id, the trimmed non-blank name and the parsed trimmed score.
   */
  lemma ParseLineSuccess(line: string, lineNumber: nat)
    ensures ParseLine(line, lineNumber).Success? ==>
            var parts, student := Split(line), ParseLine(line, lineNumber).value;
            && |parts| == 3
            && ParseInt(Trim(parts[0])) == Some(student.id)
            && student.fullName == Trim(parts[1]) && !IsBlank(student.fullName)
            && ParseInt(Trim(parts[2])) == Some(student.score)
  {
    if ParseLine(line, lineNumber).Success? {
      var parts := Split(line);
      assert |parts| == 3;
      var id := ParseInt(Trim(parts[0]));
      assert id.Some?;
      assert !IsBlank(Trim(parts[1]));
      var score := ParseInt(Trim(parts[2]));
      assert score.Some?;
      assert ParseLine(line, lineNumber) == Success(Student(id.value, Trim(parts[1]), score.value));
    }
  }

  lemma JoinThree(a: string, b: string, c: string)
    ensures Join([a, b, c]) == a + "," + b + "," + c
  {
    assert [a, b, c][1..] == [b, c];
    assert [b, c][1..] == [c];
    assert Join([b, c]) == b + "," + c;
    assert a + "," + (b + "," + c) == a + "," + b + "," + c;
  }

  /** A line without exactly two commas is a missing-field error, whatever else is wrong with it. */
  lemma FieldCountFirst(line: string, lineNumber: nat)
    requires |Split(line)| != 3
    ensures ParseLine(line, lineNumber) == Failure(MissingFieldError(lineNumber, WrongFieldCount(line)))
  {
  }

  /** With three parts, a bad id is reported as "Invalid ID format" before the name and score are looked at. */
  lemma IdCheckedBeforeNameAndScore(id: string, name: string, score: string, lineNumber: nat)
    requires ',' !in id && ',' !in name && ',' !in score
    requires ParseInt(Trim(id)) == None
    ensures ParseLine(id + "," + name + "," + score, lineNumber) ==
            Failure(InvalidScoreFormatError(lineNumber, IdFormat(id)))
  {
    SplitThree(id, name, score);
  }

  /** With a good id, a blank name is reported before the score is looked at. */
  lemma NameCheckedBeforeScore(id: string, name: string, score: string, lineNumber: nat)
    requires ',' !in id && ',' !in name && ',' !in score
    requires ParseInt(Trim(id)).Some? && IsBlank(name)
    ensures ParseLine(id + "," + name + "," + score, lineNumber) ==
            Failure(MissingFieldError(lineNumber, NameMissing))
  {
    SplitThree(id, name, score);
  }

  /** With a good id and a non-blank name, a score that does not parse is reported as "Invalid score format" with the raw score part. */
  lemma ScoreCheckedLast(id: string, name: string, score: string, lineNumber: nat)
    requires ',' !in id && ',' !in name && ',' !in score
    requires ParseInt(Trim(id)).Some? && !IsBlank(Trim(name))
    requires ParseInt(Trim(score)) == None
    ensures ParseLine(id + "," + name + "," + score, lineNumber) ==
            Failure(InvalidScoreFormatError(lineNumber, ScoreFormat(score)))
  {
    SplitThree(id, name, score);
  }

  /** How the demo writes a student line from the three answers typed in. */
  function FormatLine(id: string, name: string, score: string): (line: string)
    ensures ',' !in id && ',' !in name && ',' !in score ==> Split(line) == [id, " " + name, " " + score]
  {
    var line := id + ", " + name + ", " + score;
    assert ',' !in id && ',' !in name && ',' !in score ==> Split(line) == [id, " " + name, " " + score] by {
      if ',' !in id && ',' !in name && ',' !in score {
        assert line == id + "," + (" " + name) + "," + (" " + score);
        SplitThree(id, " " + name, " " + score);
      }
    }
    line
  }

  lemma TrimSpaceThenInt(n: int)
    ensures Trim(" " + IntToString(n)) == IntToString(n)
  {
    var s := IntToString(n);
    assert (" " + s)[1..] == s;
    assert !IsWhiteSpace(s[0]);
    assert TrimStart(" " + s) == s;
    assert !IsWhiteSpace(s[|s| - 1]);
  }

  lemma TrimSpaceThenName(name: string)
    requires !IsBlank(name)
    ensures Trim(" " + name) == Trim(name)
    ensures !IsBlank(Trim(name))
  {
    assert (" " + name)[1..] == name;
    var t := TrimStart(name);
    var k := |name| - |t|;
    assert t != [];
    assert !IsWhiteSpace(t[0]);
    var r := TrimEnd(t);
    assert r != [] && r[0] == t[0];
  }

  /**
   * A line written from an int id, a non-blank comma-free name and an int
   * score reads back as that id, the trimmed name and that score.
   */
  lemma {:induction false} LineRoundTrip(id: int, name: string, score: int, lineNumber: nat)
    requires ',' !in name && !IsBlank(name)
    ensures ParseLine(FormatLine(IntToString(id), name, IntToString(score)), lineNumber) ==
            Success(Student(id, Trim(name), score))
  {
    var a, b, c := IntToString(id), " " + name, " " + IntToString(score);
    var line := FormatLine(IntToString(id), name, IntToString(score));
    assert line == a + "," + b + "," + c;
    SplitThree(a, b, c);
    var parts := Split(line);
    assert parts[0] == a && parts[1] == b && parts[2] == c;
    TrimInt(id);
    IntToStringParses(id);
    assert ParseInt(Trim(parts[0])) == Some(id);
    TrimSpaceThenName(name);
    assert Trim(parts[1]) == Trim(name) && !IsBlank(Trim(name));
    TrimSpaceThenInt(score);
    IntToStringParses(score);
    assert ParseInt(Trim(parts[2])) == Some(score);
  }

  lemma SplitThree(a: string, b: string, c: string)
    requires ',' !in a && ',' !in b && ',' !in c
    ensures Split(a + "," + b + "," + c) == [a, b, c]
  {
    SplitJoin([a, b, c]);
    JoinThree(a, b, c);
  }

  lemma TrimInt(n: int)
    ensures Trim(IntToString(n)) == IntToString(n)
  {
    var s := IntToString(n);
    assert !IsWhiteSpace(s[0]);
    assert TrimStart(s) == s;
    assert !IsWhiteSpace(s[|s| - 1]);
  }

  /** Line k (0-based) is the first line the per-line rule rejects. */
  predicate FirstBadLine(lines: seq<string>, k: int) {
    && 0 <= k < |lines|
    && ParseLine(lines[k], k + 1).Failure?
    && forall i :: 0 <= i < k ==> ParseLine(lines[i], i + 1).Success?
  }

  /** Students read from the first lines, one per line in order. */
  predicate ParsedPrefix(lines: seq<string>, students: seq<Student>) {
    && |students| <= |lines|
    && forall i :: 0 <= i < |students| ==> ParseLine(lines[i], i + 1) == Success(students[i])
  }

  /** Accepting the next line extends the students read so far by its student. */
  lemma ParsedPrefixGrows(lines: seq<string>, students: seq<Student>, student: Student)
    requires ParsedPrefix(lines, students) && |students| < |lines|
    requires ParseLine(lines[|students|], |students| + 1) == Success(student)
    ensures ParsedPrefix(lines, students + [student])
  {
    var next := students + [student];
    forall i | 0 <= i < |next| ensures ParseLine(lines[i], i + 1) == Success(next[i]) {
      if i < |students| {
        assert next[i] == students[i];
        assert ParseLine(lines[i], i + 1) == Success(students[i]);
      } else {
        assert i == |students| && next[i] == student;
      }
    }
  }

  /**
   * StudentResultProcessor.ReadStudentsFromFile over the file's lines: on
   * success one student per line, in line order; the first bad line aborts
   * the read with its error and no students are returned.
   */
  method ReadStudentsFromFile(lines: seq<string>) returns (r: Result<seq<Student>, ReadError>)
    ensures r.Success? <==> forall i :: 0 <= i < |lines| ==> ParseLine(lines[i], i + 1).Success?
    ensures r.Success? ==> |r.value| == |lines|
    ensures r.Success? ==> forall i :: 0 <= i < |lines| ==> ParseLine(lines[i], i + 1) == Success(r.value[i])
    ensures r.Failure? ==> exists k :: FirstBadLine(lines, k) && ParseLine(lines[k], k + 1) == Failure(r.error)
  {
    var students: seq<Student> := [];
    var lineNumber := 0;
    while lineNumber < |lines|
      invariant 0 <= lineNumber <= |lines|
      invariant |students| == lineNumber
      invariant ParsedPrefix(lines, students)
    {
      var line := lines[lineNumber];
      lineNumber := lineNumber + 1;
      var parsed := ParseLine(line, lineNumber);
      if parsed.Failure? {
        assert FirstBadLine(lines, lineNumber - 1);
        return Failure(parsed.error);
      }
      ParsedPrefixGrows(lines, students, parsed.value);
      students := students + [parsed.value];
    }
    r := Success(students);
  }
}
