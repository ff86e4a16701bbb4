/**
 * The remote controls and expectations of the project's own test file
 * (rc_spec.rb), evaluated on the model: the four watch-list totals, the
 * button counts on the 1..200 remote with four blocked channels, and the
 * constructor's accept/reject decisions.
 */
module Examples {
  import opened Wrappers
  import opened RubyCore
  import opened Validation
  import opened Clicks

  /** The remote of the button tests: `RemoteControl.new("1 200", "4 12 24 36 48", "5 11 100 1 101 198")`. */
  function ButtonRemote(): RemoteControl {
    RemoteControl(1, 200, [12, 24, 36, 48], [11, 100, 1, 101, 198])
  }

  lemma ButtonRemoteValid()
    ensures Valid(ButtonRemote())
  {
  }

  lemma ButtonRemoteAccepted()
    ensures New([Int(1), Int(200)], [Int(4), Int(12), Int(24), Int(36), Int(48)],
                [Int(5), Int(11), Int(100), Int(1), Int(101), Int(198)]) == Ok(ButtonRemote())
  {
    var rc := ButtonRemote();
    ButtonRemoteValid();
    assert BlockedListOf(rc) == [Int(4), Int(12), Int(24), Int(36), Int(48)];
    assert WatchListOf(rc) == [Int(5), Int(11), Int(100), Int(1), Int(101), Int(198)];
    NewAcceptsValid(rc);
  }

  lemma UpButtonCounts()
    ensures UpClickCount(ButtonRemote(), 11, 11) == 0
    ensures UpClickCount(ButtonRemote(), 20, 23) == 3
    ensures UpClickCount(ButtonRemote(), 198, 2) == 4
  {
    SkippedCount(ButtonRemote(), 20, 23, Up, []);
    SkippedCount(ButtonRemote(), 198, 2, Up, []);
  }

  lemma DownButtonCounts()
    ensures DownClickCount(ButtonRemote(), 11, 11) == 0
    ensures DownClickCount(ButtonRemote(), 2, 198) == 4
    ensures DownClickCount(ButtonRemote(), 19, 16) == 3
  {
    SkippedCount(ButtonRemote(), 2, 198, Down, []);
    SkippedCount(ButtonRemote(), 19, 16, Down, []);
  }

  lemma BackButtonCounts()
    ensures BackClickCount(ButtonRemote(), 11, 11) == 1
    ensures BackClickCount(ButtonRemote(), 200, 198) == 3
    ensures BackClickCount(ButtonRemote(), 20, 22) == 3
  {
    WalksFrom200To198();
    WalksFrom20To22();
  }

  lemma WalksFrom200To198()
    ensures UpClickCount(ButtonRemote(), 200, 198) == 194 && DownClickCount(ButtonRemote(), 200, 198) == 2
  {
    SkippedCount(ButtonRemote(), 200, 198, Up, [12, 24, 36, 48]);
    SkippedCount(ButtonRemote(), 200, 198, Down, []);
  }

  lemma WalksFrom20To22()
    ensures UpClickCount(ButtonRemote(), 20, 22) == 2 && DownClickCount(ButtonRemote(), 20, 22) == 194
  {
    SkippedCount(ButtonRemote(), 20, 22, Up, []);
    SkippedCount(ButtonRemote(), 20, 22, Down, [12, 24, 36, 48]);
  }

  /** A walk that starts and ends on one channel skips that channel if it is blocked. */
  lemma SkippedOnTheSpot()
    ensures IntermediateBlockedChannels(ButtonRemote(), 11, 11, Up) == []
    ensures IntermediateBlockedChannels(ButtonRemote(), 11, 11, Down) == []
    ensures IntermediateBlockedChannels(ButtonRemote(), 12, 12, Up) == [12]
    ensures IntermediateBlockedChannels(ButtonRemote(), 12, 12, Down) == [12]
  {
    SkippedList(ButtonRemote(), 11, 11, Up, []);
    SkippedList(ButtonRemote(), 11, 11, Down, []);
    SkippedList(ButtonRemote(), 12, 12, Up, [12]);
    SkippedList(ButtonRemote(), 12, 12, Down, [12]);
  }

  /** From 11 to 100 "up" passes every blocked channel, "down" passes none. */
  lemma SkippedFrom11To100()
    ensures IntermediateBlockedChannels(ButtonRemote(), 11, 100, Up) == [12, 24, 36, 48]
    ensures IntermediateBlockedChannels(ButtonRemote(), 11, 100, Down) == []
  {
    SkippedList(ButtonRemote(), 11, 100, Up, [12, 24, 36, 48]);
    SkippedList(ButtonRemote(), 11, 100, Down, []);
  }

  /** From 40 to 20 "up" wraps past 200: it skips 48 on the way up, then 12 after the wrap. */
  lemma SkippedFrom40To20()
    ensures IntermediateBlockedChannels(ButtonRemote(), 40, 20, Up) == [48, 12]
  {
    SkippedListWrapped(ButtonRemote(), 40, 20, [48], [12]);
  }

  /** From 100 to 1 "up" wraps past 200 and passes no blocked channel, "down" passes them all. */
  lemma SkippedFrom100To1()
    ensures IntermediateBlockedChannels(ButtonRemote(), 100, 1, Up) == []
    ensures IntermediateBlockedChannels(ButtonRemote(), 100, 1, Down) == [12, 24, 36, 48]
  {
    SkippedList(ButtonRemote(), 100, 1, Up, []);
    SkippedList(ButtonRemote(), 100, 1, Down, [12, 24, 36, 48]);
  }

  /** The remote control built from "1 20", "2 18 19", "5 15 14 17 1 17" (rc_spec.rb line 29). */
  function FirstRemote(): RemoteControl {
    RemoteControl(1, 20, [18, 19], [15, 14, 17, 1, 17])
  }

  lemma FirstRemoteValid()
    ensures Valid(FirstRemote())
  {
  }

  lemma FirstRemoteAccepted()
    ensures New([Int(1), Int(20)], [Int(2), Int(18), Int(19)], [Int(5), Int(15), Int(14), Int(17), Int(1), Int(17)]) == Ok(FirstRemote())
  {
    var rc := FirstRemote();
    FirstRemoteValid();
    assert BlockedListOf(rc) == [Int(2), Int(18), Int(19)];
    assert WatchListOf(rc) == [Int(5), Int(15), Int(14), Int(17), Int(1), Int(17)];
    NewAcceptsValid(rc);
  }

  lemma FirstScenarioWalk15To14()
    ensures UpClickCount(FirstRemote(), 15, 14) == 17
    ensures DownClickCount(FirstRemote(), 15, 14) == 1
  {
    var rc := FirstRemote();
    SkippedCount(rc, 15, 14, Up, [18, 19]);
    SkippedCount(rc, 15, 14, Down, []);
  }

  lemma FirstScenarioWalk14To17()
    ensures UpClickCount(FirstRemote(), 14, 17) == 3
    ensures DownClickCount(FirstRemote(), 14, 17) == 15
  {
    var rc := FirstRemote();
    SkippedCount(rc, 14, 17, Up, []);
    SkippedCount(rc, 14, 17, Down, [18, 19]);
  }

  lemma FirstScenarioWalk15To17()
    ensures UpClickCount(FirstRemote(), 15, 17) == 2
    ensures DownClickCount(FirstRemote(), 15, 17) == 16
  {
    var rc := FirstRemote();
    SkippedCount(rc, 15, 17, Up, []);
    SkippedCount(rc, 15, 17, Down, [18, 19]);
  }

  lemma FirstScenarioWalk17To1()
    ensures UpClickCount(FirstRemote(), 17, 1) == 2
    ensures DownClickCount(FirstRemote(), 17, 1) == 16
  {
    var rc := FirstRemote();
    SkippedCount(rc, 17, 1, Up, [18, 19]);
    SkippedCount(rc, 17, 1, Down, []);
  }

  lemma FirstScenarioWalk14To1()
    ensures UpClickCount(FirstRemote(), 14, 1) == 5
    ensures DownClickCount(FirstRemote(), 14, 1) == 13
  {
    var rc := FirstRemote();
    SkippedCount(rc, 14, 1, Up, [18, 19]);
    SkippedCount(rc, 14, 1, Down, []);
  }

  lemma FirstScenarioWalk1To17()
    ensures UpClickCount(FirstRemote(), 1, 17) == 16
    ensures DownClickCount(FirstRemote(), 1, 17) == 2
  {
    var rc := FirstRemote();
    SkippedCount(rc, 1, 17, Up, []);
    SkippedCount(rc, 1, 17, Down, [18, 19]);
  }

  lemma FirstScenarioHop0()
    ensures HopClicks(FirstRemote(), 0) == 1
  {
    var rc := FirstRemote();
    assert rc.watch[0] == 15 && rc.watch[1] == 14;
    FirstScenarioWalk15To14();
    assert Digits(14) == 2;
    HopClicksUnfold(rc, 0);
  }

  lemma FirstScenarioHop1()
    ensures HopClicks(FirstRemote(), 1) == 2
  {
    var rc := FirstRemote();
    assert rc.watch[0] == 15 && rc.watch[1] == 14 && rc.watch[2] == 17;
    FirstScenarioWalk14To17();
    FirstScenarioWalk15To17();
    assert Digits(17) == 2;
    HopClicksUnfold(rc, 1);
  }

  lemma FirstScenarioHop2()
    ensures HopClicks(FirstRemote(), 2) == 1
  {
    var rc := FirstRemote();
    assert rc.watch[1] == 14 && rc.watch[2] == 17 && rc.watch[3] == 1;
    FirstScenarioWalk17To1();
    FirstScenarioWalk14To1();
    assert Digits(1) == 1;
    HopClicksUnfold(rc, 2);
  }

  lemma FirstScenarioHop3()
    ensures HopClicks(FirstRemote(), 3) == 1
  {
    var rc := FirstRemote();
    assert rc.watch[2] == 17 && rc.watch[3] == 1 && rc.watch[4] == 17;
    FirstScenarioWalk1To17();
    assert Digits(17) == 2;
    HopClicksUnfold(rc, 3);
  }

  lemma FirstScenarioUpTo1()
    ensures Sum(HopCosts(FirstRemote())[..1]) == 1
  {
    var rc := FirstRemote();
    assert HopCosts(rc)[..0] == [];
    FirstScenarioHop0();
    HopCostsStep(rc, 0);
  }

  lemma FirstScenarioUpTo2()
    ensures Sum(HopCosts(FirstRemote())[..2]) == 3
  {
    var rc := FirstRemote();
    FirstScenarioUpTo1();
    FirstScenarioHop1();
    HopCostsStep(rc, 1);
  }

  lemma FirstScenarioUpTo3()
    ensures Sum(HopCosts(FirstRemote())[..3]) == 4
  {
    var rc := FirstRemote();
    FirstScenarioUpTo2();
    FirstScenarioHop2();
    HopCostsStep(rc, 2);
  }

  lemma FirstScenarioUpTo4()
    ensures Sum(HopCosts(FirstRemote())[..4]) == 5
  {
    var rc := FirstRemote();
    FirstScenarioUpTo3();
    FirstScenarioHop3();
    HopCostsStep(rc, 3);
  }

  /** The watch list of `FirstRemote` takes 7 clicks. */
  lemma FirstScenario()
    ensures TotalClicks(FirstRemote()) == 7
  {
    var rc := FirstRemote();
    FirstScenarioUpTo4();
    TotalClicksFromPrefix(rc);
    assert |rc.watch| - 1 == 4;
    assert Digits(15) == 2;
  }

  /** The remote control built from "103 108", "1 104", "5 105 106 107 103 105" (rc_spec.rb line 33). */
  function SecondRemote(): RemoteControl {
    RemoteControl(103, 108, [104], [105, 106, 107, 103, 105])
  }

  lemma SecondRemoteValid()
    ensures Valid(SecondRemote())
  {
  }

  lemma SecondRemoteAccepted()
    ensures New([Int(103), Int(108)], [Int(1), Int(104)], [Int(5), Int(105), Int(106), Int(107), Int(103), Int(105)]) == Ok(SecondRemote())
  {
    var rc := SecondRemote();
    SecondRemoteValid();
    assert BlockedListOf(rc) == [Int(1), Int(104)];
    assert WatchListOf(rc) == [Int(5), Int(105), Int(106), Int(107), Int(103), Int(105)];
    NewAcceptsValid(rc);
  }

  lemma SecondScenarioWalk105To106()
    ensures UpClickCount(SecondRemote(), 105, 106) == 1
    ensures DownClickCount(SecondRemote(), 105, 106) == 4
  {
    var rc := SecondRemote();
    SkippedCount(rc, 105, 106, Up, []);
    SkippedCount(rc, 105, 106, Down, [104]);
  }

  lemma SecondScenarioWalk106To107()
    ensures UpClickCount(SecondRemote(), 106, 107) == 1
    ensures DownClickCount(SecondRemote(), 106, 107) == 4
  {
    var rc := SecondRemote();
    SkippedCount(rc, 106, 107, Up, []);
    SkippedCount(rc, 106, 107, Down, [104]);
  }

  lemma SecondScenarioWalk105To107()
    ensures UpClickCount(SecondRemote(), 105, 107) == 2
    ensures DownClickCount(SecondRemote(), 105, 107) == 3
  {
    var rc := SecondRemote();
    SkippedCount(rc, 105, 107, Up, []);
    SkippedCount(rc, 105, 107, Down, [104]);
  }

  lemma SecondScenarioWalk107To103()
    ensures UpClickCount(SecondRemote(), 107, 103) == 2
    ensures DownClickCount(SecondRemote(), 107, 103) == 3
  {
    var rc := SecondRemote();
    SkippedCount(rc, 107, 103, Up, []);
    SkippedCount(rc, 107, 103, Down, [104]);
  }

  lemma SecondScenarioWalk106To103()
    ensures UpClickCount(SecondRemote(), 106, 103) == 3
    ensures DownClickCount(SecondRemote(), 106, 103) == 2
  {
    var rc := SecondRemote();
    SkippedCount(rc, 106, 103, Up, []);
    SkippedCount(rc, 106, 103, Down, [104]);
  }

  lemma SecondScenarioBack106To103()
    ensures BackClickCount(SecondRemote(), 106, 103) == 3
  {
    SecondScenarioWalk106To103();
  }

  lemma SecondScenarioWalk103To105()
    ensures UpClickCount(SecondRemote(), 103, 105) == 1
    ensures DownClickCount(SecondRemote(), 103, 105) == 4
  {
    var rc := SecondRemote();
    SkippedCount(rc, 103, 105, Up, [104]);
    SkippedCount(rc, 103, 105, Down, []);
  }

  lemma SecondScenarioWalk107To105()
    ensures UpClickCount(SecondRemote(), 107, 105) == 3
    ensures DownClickCount(SecondRemote(), 107, 105) == 2
  {
    var rc := SecondRemote();
    SkippedCount(rc, 107, 105, Up, [104]);
    SkippedCount(rc, 107, 105, Down, []);
  }

  lemma SecondScenarioHop0()
    ensures HopClicks(SecondRemote(), 0) == 1
  {
    var rc := SecondRemote();
    assert rc.watch[0] == 105 && rc.watch[1] == 106;
    SecondScenarioWalk105To106();
    assert Digits(106) == 3;
    HopClicksUnfold(rc, 0);
  }

  lemma SecondScenarioHop1()
    ensures HopClicks(SecondRemote(), 1) == 1
  {
    var rc := SecondRemote();
    assert rc.watch[0] == 105 && rc.watch[1] == 106 && rc.watch[2] == 107;
    SecondScenarioWalk106To107();
    SecondScenarioWalk105To107();
    assert Digits(107) == 3;
    HopClicksUnfold(rc, 1);
  }

  lemma SecondScenarioHop2()
    ensures HopClicks(SecondRemote(), 2) == 2
  {
    var rc := SecondRemote();
    assert rc.watch[1] == 106 && rc.watch[2] == 107 && rc.watch[3] == 103;
    SecondScenarioWalk107To103();
    SecondScenarioBack106To103();
    assert Digits(103) == 3;
    HopClicksUnfold(rc, 2);
  }

  lemma SecondScenarioHop3()
    ensures HopClicks(SecondRemote(), 3) == 1
  {
    var rc := SecondRemote();
    assert rc.watch[2] == 107 && rc.watch[3] == 103 && rc.watch[4] == 105;
    SecondScenarioWalk103To105();
    SecondScenarioWalk107To105();
    assert Digits(105) == 3;
    HopClicksUnfold(rc, 3);
  }

  lemma SecondScenarioUpTo1()
    ensures Sum(HopCosts(SecondRemote())[..1]) == 1
  {
    var rc := SecondRemote();
    assert HopCosts(rc)[..0] == [];
    SecondScenarioHop0();
    HopCostsStep(rc, 0);
  }

  lemma SecondScenarioUpTo2()
    ensures Sum(HopCosts(SecondRemote())[..2]) == 2
  {
    var rc := SecondRemote();
    SecondScenarioUpTo1();
    SecondScenarioHop1();
    HopCostsStep(rc, 1);
  }

  lemma SecondScenarioUpTo3()
    ensures Sum(HopCosts(SecondRemote())[..3]) == 4
  {
    var rc := SecondRemote();
    SecondScenarioUpTo2();
    SecondScenarioHop2();
    HopCostsStep(rc, 2);
  }

  lemma SecondScenarioUpTo4()
    ensures Sum(HopCosts(SecondRemote())[..4]) == 5
  {
    var rc := SecondRemote();
    SecondScenarioUpTo3();
    SecondScenarioHop3();
    HopCostsStep(rc, 3);
  }

  /** The watch list of `SecondRemote` takes 8 clicks. */
  lemma SecondScenario()
    ensures TotalClicks(SecondRemote()) == 8
  {
    var rc := SecondRemote();
    SecondScenarioUpTo4();
    TotalClicksFromPrefix(rc);
    assert |rc.watch| - 1 == 4;
    assert Digits(105) == 3;
  }

  /** The remote control built from "1 100", "4 78 79 80 3", "8 10 13 13 100 99 98 77 81" (rc_spec.rb line 37). */
  function ThirdRemote(): RemoteControl {
    RemoteControl(1, 100, [78, 79, 80, 3], [10, 13, 13, 100, 99, 98, 77, 81])
  }

  lemma ThirdRemoteValid()
    ensures Valid(ThirdRemote())
  {
  }

  lemma ThirdRemoteAccepted()
    ensures New([Int(1), Int(100)], [Int(4), Int(78), Int(79), Int(80), Int(3)], [Int(8), Int(10), Int(13), Int(13), Int(100), Int(99), Int(98), Int(77), Int(81)]) == Ok(ThirdRemote())
  {
    var rc := ThirdRemote();
    ThirdRemoteValid();
    assert BlockedListOf(rc) == [Int(4), Int(78), Int(79), Int(80), Int(3)];
    assert WatchListOf(rc) == [Int(8), Int(10), Int(13), Int(13), Int(100), Int(99), Int(98), Int(77), Int(81)];
    NewAcceptsValid(rc);
  }

  lemma ThirdScenarioWalk10To13()
    ensures UpClickCount(ThirdRemote(), 10, 13) == 3
    ensures DownClickCount(ThirdRemote(), 10, 13) == 93
  {
    var rc := ThirdRemote();
    SkippedCount(rc, 10, 13, Up, []);
    SkippedCount(rc, 10, 13, Down, [3, 78, 79, 80]);
  }

  lemma ThirdScenarioWalk13To100()
    ensures UpClickCount(ThirdRemote(), 13, 100) == 84
    ensures DownClickCount(ThirdRemote(), 13, 100) == 12
  {
    var rc := ThirdRemote();
    SkippedCount(rc, 13, 100, Up, [78, 79, 80]);
    SkippedCount(rc, 13, 100, Down, [3]);
  }

  lemma ThirdScenarioWalk100To99()
    ensures UpClickCount(ThirdRemote(), 100, 99) == 95
    ensures DownClickCount(ThirdRemote(), 100, 99) == 1
  {
    var rc := ThirdRemote();
    SkippedCount(rc, 100, 99, Up, [3, 78, 79, 80]);
    SkippedCount(rc, 100, 99, Down, []);
  }

  lemma ThirdScenarioWalk13To99()
    ensures UpClickCount(ThirdRemote(), 13, 99) == 83
    ensures DownClickCount(ThirdRemote(), 13, 99) == 13
  {
    var rc := ThirdRemote();
    SkippedCount(rc, 13, 99, Up, [78, 79, 80]);
    SkippedCount(rc, 13, 99, Down, [3]);
  }

  lemma ThirdScenarioWalk99To98()
    ensures UpClickCount(ThirdRemote(), 99, 98) == 95
    ensures DownClickCount(ThirdRemote(), 99, 98) == 1
  {
    var rc := ThirdRemote();
    SkippedCount(rc, 99, 98, Up, [3, 78, 79, 80]);
    SkippedCount(rc, 99, 98, Down, []);
  }

  lemma ThirdScenarioWalk100To98()
    ensures UpClickCount(ThirdRemote(), 100, 98) == 94
    ensures DownClickCount(ThirdRemote(), 100, 98) == 2
  {
    var rc := ThirdRemote();
    SkippedCount(rc, 100, 98, Up, [3, 78, 79, 80]);
    SkippedCount(rc, 100, 98, Down, []);
  }

  lemma ThirdScenarioWalk98To77()
    ensures UpClickCount(ThirdRemote(), 98, 77) == 78
    ensures DownClickCount(ThirdRemote(), 98, 77) == 18
  {
    var rc := ThirdRemote();
    SkippedCount(rc, 98, 77, Up, [3]);
    SkippedCount(rc, 98, 77, Down, [78, 79, 80]);
  }

  lemma ThirdScenarioWalk99To77()
    ensures UpClickCount(ThirdRemote(), 99, 77) == 77
    ensures DownClickCount(ThirdRemote(), 99, 77) == 19
  {
    var rc := ThirdRemote();
    SkippedCount(rc, 99, 77, Up, [3]);
    SkippedCount(rc, 99, 77, Down, [78, 79, 80]);
  }

  lemma ThirdScenarioWalk77To81()
    ensures UpClickCount(ThirdRemote(), 77, 81) == 1
    ensures DownClickCount(ThirdRemote(), 77, 81) == 95
  {
    var rc := ThirdRemote();
    SkippedCount(rc, 77, 81, Up, [78, 79, 80]);
    SkippedCount(rc, 77, 81, Down, [3]);
  }

  lemma ThirdScenarioWalk98To81()
    ensures UpClickCount(ThirdRemote(), 98, 81) == 79
    ensures DownClickCount(ThirdRemote(), 98, 81) == 17
  {
    var rc := ThirdRemote();
    SkippedCount(rc, 98, 81, Up, [3, 78, 79, 80]);
    SkippedCount(rc, 98, 81, Down, []);
  }

  lemma ThirdScenarioHop0()
    ensures HopClicks(ThirdRemote(), 0) == 2
  {
    var rc := ThirdRemote();
    assert rc.watch[0] == 10 && rc.watch[1] == 13;
    ThirdScenarioWalk10To13();
    assert Digits(13) == 2;
    HopClicksUnfold(rc, 0);
  }

  lemma ThirdScenarioHop1()
    ensures HopClicks(ThirdRemote(), 1) == 0
  {
    var rc := ThirdRemote();
    assert rc.watch[1] == 13 && rc.watch[2] == 13;
    HopClicksUnfold(rc, 1);
  }

  lemma ThirdScenarioHop2()
    ensures HopClicks(ThirdRemote(), 2) == 3
  {
    var rc := ThirdRemote();
    assert rc.watch[1] == 13 && rc.watch[2] == 13 && rc.watch[3] == 100;
    ThirdScenarioWalk13To100();
    assert Digits(100) == 3;
    HopClicksUnfold(rc, 2);
  }

  lemma ThirdScenarioHop3()
    ensures HopClicks(ThirdRemote(), 3) == 1
  {
    var rc := ThirdRemote();
    assert rc.watch[2] == 13 && rc.watch[3] == 100 && rc.watch[4] == 99;
    ThirdScenarioWalk100To99();
    ThirdScenarioWalk13To99();
    assert Digits(99) == 2;
    HopClicksUnfold(rc, 3);
  }

  lemma ThirdScenarioHop4()
    ensures HopClicks(ThirdRemote(), 4) == 1
  {
    var rc := ThirdRemote();
    assert rc.watch[3] == 100 && rc.watch[4] == 99 && rc.watch[5] == 98;
    ThirdScenarioWalk99To98();
    ThirdScenarioWalk100To98();
    assert Digits(98) == 2;
    HopClicksUnfold(rc, 4);
  }

  lemma ThirdScenarioHop5()
    ensures HopClicks(ThirdRemote(), 5) == 2
  {
    var rc := ThirdRemote();
    assert rc.watch[4] == 99 && rc.watch[5] == 98 && rc.watch[6] == 77;
    ThirdScenarioWalk98To77();
    ThirdScenarioWalk99To77();
    assert Digits(77) == 2;
    HopClicksUnfold(rc, 5);
  }

  lemma ThirdScenarioHop6()
    ensures HopClicks(ThirdRemote(), 6) == 1
  {
    var rc := ThirdRemote();
    assert rc.watch[5] == 98 && rc.watch[6] == 77 && rc.watch[7] == 81;
    ThirdScenarioWalk77To81();
    ThirdScenarioWalk98To81();
    assert Digits(81) == 2;
    HopClicksUnfold(rc, 6);
  }

  lemma ThirdScenarioUpTo1()
    ensures Sum(HopCosts(ThirdRemote())[..1]) == 2
  {
    var rc := ThirdRemote();
    assert HopCosts(rc)[..0] == [];
    ThirdScenarioHop0();
    HopCostsStep(rc, 0);
  }

  lemma ThirdScenarioUpTo2()
    ensures Sum(HopCosts(ThirdRemote())[..2]) == 2
  {
    var rc := ThirdRemote();
    ThirdScenarioUpTo1();
    ThirdScenarioHop1();
    HopCostsStep(rc, 1);
  }

  lemma ThirdScenarioUpTo3()
    ensures Sum(HopCosts(ThirdRemote())[..3]) == 5
  {
    var rc := ThirdRemote();
    ThirdScenarioUpTo2();
    ThirdScenarioHop2();
    HopCostsStep(rc, 2);
  }

  lemma ThirdScenarioUpTo4()
    ensures Sum(HopCosts(ThirdRemote())[..4]) == 6
  {
    var rc := ThirdRemote();
    ThirdScenarioUpTo3();
    ThirdScenarioHop3();
    HopCostsStep(rc, 3);
  }

  lemma ThirdScenarioUpTo5()
    ensures Sum(HopCosts(ThirdRemote())[..5]) == 7
  {
    var rc := ThirdRemote();
    ThirdScenarioUpTo4();
    ThirdScenarioHop4();
    HopCostsStep(rc, 4);
  }

  lemma ThirdScenarioUpTo6()
    ensures Sum(HopCosts(ThirdRemote())[..6]) == 9
  {
    var rc := ThirdRemote();
    ThirdScenarioUpTo5();
    ThirdScenarioHop5();
    HopCostsStep(rc, 5);
  }

  lemma ThirdScenarioUpTo7()
    ensures Sum(HopCosts(ThirdRemote())[..7]) == 10
  {
    var rc := ThirdRemote();
    ThirdScenarioUpTo6();
    ThirdScenarioHop6();
    HopCostsStep(rc, 6);
  }

  /** The watch list of `ThirdRemote` takes 12 clicks. */
  lemma ThirdScenario()
    ensures TotalClicks(ThirdRemote()) == 12
  {
    var rc := ThirdRemote();
    ThirdScenarioUpTo7();
    TotalClicksFromPrefix(rc);
    assert |rc.watch| - 1 == 7;
    assert Digits(10) == 2;
  }

  /** The remote control built from "1 200", "0", "4 1 100 1 101" (rc_spec.rb line 42). */
  function FourthRemote(): RemoteControl {
    RemoteControl(1, 200, [], [1, 100, 1, 101])
  }

  lemma FourthRemoteValid()
    ensures Valid(FourthRemote())
  {
  }

  lemma FourthRemoteAccepted()
    ensures New([Int(1), Int(200)], [Int(0)], [Int(4), Int(1), Int(100), Int(1), Int(101)]) == Ok(FourthRemote())
  {
    var rc := FourthRemote();
    FourthRemoteValid();
    assert BlockedListOf(rc) == [Int(0)];
    assert WatchListOf(rc) == [Int(4), Int(1), Int(100), Int(1), Int(101)];
    NewAcceptsValid(rc);
  }

  lemma FourthScenarioWalk1To100()
    ensures UpClickCount(FourthRemote(), 1, 100) == 99
    ensures DownClickCount(FourthRemote(), 1, 100) == 101
  {
    var rc := FourthRemote();
    SkippedCount(rc, 1, 100, Up, []);
    SkippedCount(rc, 1, 100, Down, []);
  }

  lemma FourthScenarioWalk100To1()
    ensures UpClickCount(FourthRemote(), 100, 1) == 101
    ensures DownClickCount(FourthRemote(), 100, 1) == 99
  {
    var rc := FourthRemote();
    SkippedCount(rc, 100, 1, Up, []);
    SkippedCount(rc, 100, 1, Down, []);
  }

  lemma FourthScenarioWalk1To101()
    ensures UpClickCount(FourthRemote(), 1, 101) == 100
    ensures DownClickCount(FourthRemote(), 1, 101) == 100
  {
    var rc := FourthRemote();
    SkippedCount(rc, 1, 101, Up, []);
    SkippedCount(rc, 1, 101, Down, []);
  }

  lemma FourthScenarioWalk100To101()
    ensures UpClickCount(FourthRemote(), 100, 101) == 1
    ensures DownClickCount(FourthRemote(), 100, 101) == 199
  {
    var rc := FourthRemote();
    SkippedCount(rc, 100, 101, Up, []);
    SkippedCount(rc, 100, 101, Down, []);
  }

  lemma FourthScenarioHop0()
    ensures HopClicks(FourthRemote(), 0) == 3
  {
    var rc := FourthRemote();
    assert rc.watch[0] == 1 && rc.watch[1] == 100;
    FourthScenarioWalk1To100();
    assert Digits(100) == 3;
    HopClicksUnfold(rc, 0);
  }

  lemma FourthScenarioHop1()
    ensures HopClicks(FourthRemote(), 1) == 1
  {
    var rc := FourthRemote();
    assert rc.watch[0] == 1 && rc.watch[1] == 100 && rc.watch[2] == 1;
    FourthScenarioWalk100To1();
    assert Digits(1) == 1;
    HopClicksUnfold(rc, 1);
  }

  lemma FourthScenarioHop2()
    ensures HopClicks(FourthRemote(), 2) == 2
  {
    var rc := FourthRemote();
    assert rc.watch[1] == 100 && rc.watch[2] == 1 && rc.watch[3] == 101;
    FourthScenarioWalk1To101();
    FourthScenarioWalk100To101();
    assert Digits(101) == 3;
    HopClicksUnfold(rc, 2);
  }

  lemma FourthScenarioUpTo1()
    ensures Sum(HopCosts(FourthRemote())[..1]) == 3
  {
    var rc := FourthRemote();
    assert HopCosts(rc)[..0] == [];
    FourthScenarioHop0();
    HopCostsStep(rc, 0);
  }

  lemma FourthScenarioUpTo2()
    ensures Sum(HopCosts(FourthRemote())[..2]) == 4
  {
    var rc := FourthRemote();
    FourthScenarioUpTo1();
    FourthScenarioHop1();
    HopCostsStep(rc, 1);
  }

  lemma FourthScenarioUpTo3()
    ensures Sum(HopCosts(FourthRemote())[..3]) == 6
  {
    var rc := FourthRemote();
    FourthScenarioUpTo2();
    FourthScenarioHop2();
    HopCostsStep(rc, 2);
  }

  /** The watch list of `FourthRemote` takes 7 clicks. */
  lemma FourthScenario()
    ensures TotalClicks(FourthRemote()) == 7
  {
    var rc := FourthRemote();
    FourthScenarioUpTo3();
    TotalClicksFromPrefix(rc);
    assert |rc.watch| - 1 == 3;
    assert Digits(1) == 1;
  }

  /** rc_spec.rb line 56. */
  lemma EmptyRangeRefused()
    ensures New([], [Int(1), Int(1)], [Int(2), Int(3), Int(4)]) == Err(RangeNotTwoIntegers)
  {
  }

  /** rc_spec.rb line 57. */
  lemma OneNumberRangeRefused()
    ensures New([Int(1)], [Int(1), Int(1)], [Int(2), Int(3), Int(4)]) == Err(RangeNotTwoIntegers)
  {
  }

  /** rc_spec.rb line 58. */
  lemma ThreeNumberRangeRefused()
    ensures New([Int(1), Int(100), Int(210)], [Int(1), Int(1)], [Int(2), Int(3), Int(4)]) == Err(RangeNotTwoIntegers)
  {
  }

  /** rc_spec.rb line 62. */
  lemma NegativeLowestRefused()
    ensures New([Int(-1), Int(10)], [Int(1), Int(1)], [Int(2), Int(3), Int(4)]) == Err(LowestOutOfBounds)
  {
  }

  /** rc_spec.rb line 63. */
  lemma ZeroLowestRefused()
    ensures New([Int(0), Int(10)], [Int(1), Int(1)], [Int(2), Int(3), Int(4)]) == Err(LowestOutOfBounds)
  {
  }

  /** rc_spec.rb line 64. */
  lemma LowestAboveLimitRefused()
    ensures New([Int(100000), Int(10)], [Int(1), Int(1)], [Int(2), Int(3), Int(4)]) == Err(LowestOutOfBounds)
  {
  }

  /** rc_spec.rb line 69. */
  lemma HighestBelowLowestRefused()
    ensures New([Int(1000), Int(100)], [Int(1), Int(1)], [Int(2), Int(3), Int(4)]) == Err(HighestOutOfBounds)
  {
  }

  /** rc_spec.rb line 70. */
  lemma HighestAboveLimitRefused()
    ensures New([Int(1000), Int(19000)], [Int(1), Int(1)], [Int(2), Int(3), Int(4)]) == Err(HighestOutOfBounds)
  {
  }

  /** rc_spec.rb line 80. */
  lemma BlockedAboveRangeRefused()
    ensures New([Int(10), Int(100)], [Int(1), Int(1000)], [Int(2), Int(30), Int(40)]) == Err(BlockedOutOfRange)
  {
  }

  /** rc_spec.rb line 81. */
  lemma BlockedBelowRangeRefused()
    ensures New([Int(10), Int(100)], [Int(1), Int(1)], [Int(2), Int(30), Int(40)]) == Err(BlockedOutOfRange)
  {
  }

  /** rc_spec.rb line 87. */
  lemma BlockedCountTooLowRefused()
    ensures New([Int(10), Int(100)], [Int(1), Int(11), Int(10)], [Int(2), Int(30), Int(40)]) == Err(BlockedCountMismatch)
  {
  }

  /** rc_spec.rb line 88. */
  lemma BlockedCountTooHighRefused()
    ensures New([Int(10), Int(100)], [Int(4), Int(11), Int(10)], [Int(2), Int(30), Int(40)]) == Err(BlockedCountMismatch)
  {
  }

  /** rc_spec.rb line 101. */
  lemma FortyOneBlockedRefused()
    ensures New([Int(10), Int(100)], [Int(41), Int(90)], [Int(2), Int(30), Int(40)]) == Err(TooManyBlocked)
  {
  }

  /** rc_spec.rb line 109. */
  lemma WatchBelowRangeRefused()
    ensures New([Int(10), Int(100)], [Int(1), Int(10)], [Int(2), Int(30), Int(4)]) == Err(WatchOutOfRange)
  {
    BlockedListAccepted([10], 10, 100);
    assert [Int(1), Int(10)] == [Int(1)] + Tokens([10]);
    assert [Int(2), Int(30), Int(4)] == Tokens([2, 30, 4]);
    IntegersOfTokens([2, 30, 4]);
    assert ValidateChannelList([Int(10), Int(100)]) == Ok((10, 100));
    assert ValidateToWatchChannelList([Int(2), Int(30), Int(4)], 10, 100, [10]) == Err(WatchOutOfRange);
  }

  /** rc_spec.rb line 110. */
  lemma WatchAboveRangeRefused()
    ensures New([Int(10), Int(100)], [Int(1), Int(10)], [Int(2), Int(20), Int(200)]) == Err(WatchOutOfRange)
  {
    BlockedListAccepted([10], 10, 100);
    assert [Int(1), Int(10)] == [Int(1)] + Tokens([10]);
    assert [Int(2), Int(20), Int(200)] == Tokens([2, 20, 200]);
    IntegersOfTokens([2, 20, 200]);
    assert ValidateChannelList([Int(10), Int(100)]) == Ok((10, 100));
    assert ValidateToWatchChannelList([Int(2), Int(20), Int(200)], 10, 100, [10]) == Err(WatchOutOfRange);
  }

  /** rc_spec.rb line 115. */
  lemma EmptyWatchRefused()
    ensures New([Int(10), Int(100)], [Int(1), Int(10)], []) == Err(WatchCountOutOfBounds)
  {
  }

  /** rc_spec.rb line 116. */
  lemma ZeroWatchRefused()
    ensures New([Int(10), Int(100)], [Int(1), Int(10)], [Int(0)]) == Err(WatchCountOutOfBounds)
  {
  }

  /** rc_spec.rb line 117. */
  lemma NegativeWatchCountRefused()
    ensures New([Int(10), Int(100)], [Int(1), Int(10)], [Int(-1)]) == Err(WatchCountOutOfBounds)
  {
  }

  /** rc_spec.rb line 118. */
  lemma FiftyOneWatchRefused()
    ensures New([Int(10), Int(100)], [Int(1), Int(10)], [Int(51), Int(232)]) == Err(WatchCountOutOfBounds)
  {
  }

  /** rc_spec.rb line 124. */
  lemma WatchOfBlockedRefused()
    ensures New([Int(10), Int(100)], [Int(1), Int(10)], [Int(1), Int(10)]) == Err(WatchContainsBlocked)
  {
  }

  /** rc_spec.rb line 125: 10 is both blocked and watched, so the count is never compared. */
  lemma WatchHoldingBlockedRefused()
    ensures New([Int(1), Int(100)], [Int(2), Int(50), Int(10)], [Int(5), Int(88), Int(54), Int(73), Int(44), Int(10)]) == Err(WatchContainsBlocked)
  {
    var blocked, watched := [50, 10], [88, 54, 73, 44, 10];
    assert [Int(5), Int(88), Int(54), Int(73), Int(44), Int(10)] == Tokens([5] + watched);
    IntegersOfTokens([5] + watched);
    BlockedListAccepted(blocked, 1, 100);
    assert [Int(2), Int(50), Int(10)] == [Int(2)] + Tokens(blocked);
    IntersectContents(watched, blocked);
    assert 10 in Intersect(watched, blocked);
    assert ValidateChannelList([Int(1), Int(100)]) == Ok((1, 100));
    assert ValidateToWatchChannelList([Int(5), Int(88), Int(54), Int(73), Int(44), Int(10)], 1, 100, blocked) == Err(WatchContainsBlocked);
  }

  /** rc_spec.rb line 65. */
  lemma TenToHundredAccepted()
    ensures New([Int(10), Int(100)], [Int(1), Int(10)], [Int(2), Int(12), Int(14)]) == Ok(RemoteControl(10, 100, [10], [12, 14]))
  {
    var rc := RemoteControl(10, 100, [10], [12, 14]);
    assert Valid(rc);
    assert BlockedListOf(rc) == [Int(1), Int(10)];
    assert WatchListOf(rc) == [Int(2), Int(12), Int(14)];
    NewAcceptsValid(rc);
  }

  /** rc_spec.rb line 71. */
  lemma OneToTenAccepted()
    ensures New([Int(1), Int(10)], [Int(1), Int(1)], [Int(2), Int(3), Int(4)]) == Ok(RemoteControl(1, 10, [1], [3, 4]))
  {
    var rc := RemoteControl(1, 10, [1], [3, 4]);
    assert Valid(rc);
    assert BlockedListOf(rc) == [Int(1), Int(1)];
    assert WatchListOf(rc) == [Int(2), Int(3), Int(4)];
    NewAcceptsValid(rc);
  }

  /** rc_spec.rb line 72. */
  lemma SingleChannelAccepted()
    ensures New([Int(100), Int(100)], [Int(0)], [Int(1), Int(100)]) == Ok(RemoteControl(100, 100, [], [100]))
  {
    var rc := RemoteControl(100, 100, [], [100]);
    assert Valid(rc);
    assert BlockedListOf(rc) == [Int(0)];
    assert WatchListOf(rc) == [Int(1), Int(100)];
    NewAcceptsValid(rc);
  }

  /** rc_spec.rb line 82. */
  lemma BlockedInsideRangeAccepted()
    ensures New([Int(10), Int(100)], [Int(1), Int(20)], [Int(1), Int(100)]) == Ok(RemoteControl(10, 100, [20], [100]))
  {
    var rc := RemoteControl(10, 100, [20], [100]);
    assert Valid(rc);
    assert BlockedListOf(rc) == [Int(1), Int(20)];
    assert WatchListOf(rc) == [Int(1), Int(100)];
    NewAcceptsValid(rc);
  }

  /** rc_spec.rb line 83. */
  lemma NoBlockedAccepted()
    ensures New([Int(10), Int(100)], [Int(0)], [Int(1), Int(100)]) == Ok(RemoteControl(10, 100, [], [100]))
  {
    var rc := RemoteControl(10, 100, [], [100]);
    assert Valid(rc);
    assert BlockedListOf(rc) == [Int(0)];
    assert WatchListOf(rc) == [Int(1), Int(100)];
    NewAcceptsValid(rc);
  }

  /** rc_spec.rb line 89. */
  lemma CountedBlockedAccepted()
    ensures New([Int(10), Int(100)], [Int(2), Int(12), Int(44)], [Int(1), Int(100)]) == Ok(RemoteControl(10, 100, [12, 44], [100]))
  {
    var rc := RemoteControl(10, 100, [12, 44], [100]);
    assert Valid(rc);
    assert BlockedListOf(rc) == [Int(2), Int(12), Int(44)];
    assert WatchListOf(rc) == [Int(1), Int(100)];
    NewAcceptsValid(rc);
  }

  /** rc_spec.rb line 93. */
  lemma DuplicateBlockedAccepted()
    ensures New([Int(10), Int(100)], [Int(2), Int(20), Int(20)], [Int(1), Int(100)]) == Ok(RemoteControl(10, 100, [20, 20], [100]))
  {
    var rc := RemoteControl(10, 100, [20, 20], [100]);
    assert Valid(rc);
    assert BlockedListOf(rc) == [Int(2), Int(20), Int(20)];
    assert WatchListOf(rc) == [Int(1), Int(100)];
    NewAcceptsValid(rc);
  }

  /** rc_spec.rb line 98. */
  lemma EmptyBlockedAccepted()
    ensures New([Int(10), Int(100)], [], [Int(1), Int(100)]) == Ok(RemoteControl(10, 100, [], [100]))
  {
    var rc := RemoteControl(10, 100, [], [100]);
    assert Valid(rc);
    assert WatchListOf(rc) == [Int(1), Int(100)];
    NewAcceptsValid(rc);
    EmptyBlockedListAccepted(rc.lowest, rc.highest);
  }

  /** rc_spec.rb line 111. */
  lemma WideRangeAccepted()
    ensures New([Int(10), Int(1000)], [Int(0)], [Int(2), Int(100), Int(110)]) == Ok(RemoteControl(10, 1000, [], [100, 110]))
  {
    var rc := RemoteControl(10, 1000, [], [100, 110]);
    assert Valid(rc);
    assert BlockedListOf(rc) == [Int(0)];
    assert WatchListOf(rc) == [Int(2), Int(100), Int(110)];
    NewAcceptsValid(rc);
  }

  /** rc_spec.rb line 126. */
  lemma UnblockedWatchAccepted()
    ensures New([Int(10), Int(100)], [Int(1), Int(10)], [Int(1), Int(100)]) == Ok(RemoteControl(10, 100, [10], [100]))
  {
    var rc := RemoteControl(10, 100, [10], [100]);
    assert Valid(rc);
    assert BlockedListOf(rc) == [Int(1), Int(10)];
    assert WatchListOf(rc) == [Int(1), Int(100)];
    NewAcceptsValid(rc);
  }
}
