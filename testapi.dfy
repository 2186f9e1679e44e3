/**
 * The cases of the client's test, each stated as the line the fake sender
 * logs for the operation, and a replay of the whole test on one fake
 * sender. Long expected lines are written as "verb path " followed by the
 * body, the same text in two pieces.
 */
module TestApi {
  import opened Wrappers
  import opened Decimal
  import opened Percent
  import opened Text
  import opened Batch
  import opened Forms
  import opened Sender
  import opened Facade
  import Civil

  // ----- lines logged for the operations without a body -----

  /** The ids of the test end in a digit, so the fake sender's trim leaves them whole. */
  lemma TestIdsEnd()
    ensures NoTrailingSpace("00000001") && NoTrailingSpace("01")
  {
  }

  lemma PingLine()
    ensures CallLine(RequestFor(GetPing)) == "GET ping"
  {
    assert "GET" + " " + "ping" == "GET ping";
    assert RequestFor(GetPing) == Request("GET", "ping", "");
    CallLineNoBody("GET", "ping");
  }

  lemma WatchdogsLine()
    ensures CallLine(RequestFor(GetWatchdogs)) == "GET watchdogs"
  {
    assert "GET" + " " + "watchdogs" == "GET watchdogs";
    assert RequestFor(GetWatchdogs) == Request("GET", "watchdogs", "");
    CallLineNoBody("GET", "watchdogs");
  }

  lemma MachinesLine()
    ensures CallLine(RequestFor(GetMachines)) == "GET machines"
  {
    assert "GET" + " " + "machines" == "GET machines";
    assert RequestFor(GetMachines) == Request("GET", "machines", "");
    CallLineNoBody("GET", "machines");
  }

  lemma MetricsLine()
    ensures CallLine(RequestFor(GetMetrics)) == "GET metrics"
  {
    assert "GET" + " " + "metrics" == "GET metrics";
    assert RequestFor(GetMetrics) == Request("GET", "metrics", "");
    CallLineNoBody("GET", "metrics");
  }

  lemma WatchdogShape(id: string)
    requires NoTrailingSpace(id)
    ensures CallLine(RequestFor(GetWatchdog(id))) == "GET" + " " + ("watchdog/" + id)
  {
    LineOf(GetWatchdog(id));
  }

  lemma WatchdogLineAt(id: string)
    requires id == "00000001"
    ensures CallLine(RequestFor(GetWatchdog(id))) == "GET watchdog/00000001"
  {
    assert "GET" + " " + ("watchdog/" + id) == "GET watchdog/00000001";
    TestIdsEnd();
    WatchdogShape(id);
  }

  lemma WatchdogLine()
    ensures CallLine(RequestFor(GetWatchdog("00000001"))) == "GET watchdog/00000001"
  {
    WatchdogLineAt("00000001");
  }

  lemma HeartbeatShape(id: string)
    requires NoTrailingSpace(id)
    ensures CallLine(RequestFor(PostWatchdogHeartbeat(id))) == "POST" + " " + ("watchdog/" + id + "/heartbeat")
  {
    LineOf(PostWatchdogHeartbeat(id));
  }

  lemma HeartbeatLineAt(id: string)
    requires id == "00000001"
    ensures CallLine(RequestFor(PostWatchdogHeartbeat(id))) == "POST watchdog/00000001/heartbeat"
  {
    assert "POST" + " " + ("watchdog/" + id + "/heartbeat") == "POST watchdog/00000001/heartbeat";
    TestIdsEnd();
    HeartbeatShape(id);
  }

  lemma HeartbeatLine()
    ensures CallLine(RequestFor(PostWatchdogHeartbeat("00000001"))) == "POST watchdog/00000001/heartbeat"
  {
    HeartbeatLineAt("00000001");
  }

  lemma MachineShape(id: string)
    requires NoTrailingSpace(id)
    ensures CallLine(RequestFor(GetMachine(id))) == "GET" + " " + ("machine/" + id)
  {
    LineOf(GetMachine(id));
  }

  lemma MachineLineAt(id: string)
    requires id == "01"
    ensures CallLine(RequestFor(GetMachine(id))) == "GET machine/01"
  {
    assert "GET" + " " + ("machine/" + id) == "GET machine/01";
    TestIdsEnd();
    MachineShape(id);
  }

  lemma MachineLine()
    ensures CallLine(RequestFor(GetMachine("01"))) == "GET machine/01"
  {
    MachineLineAt("01");
  }

  lemma MetricShape(id: string)
    requires NoTrailingSpace(id)
    ensures CallLine(RequestFor(GetMetric(id))) == "GET" + " " + ("metric/" + id)
  {
    LineOf(GetMetric(id));
  }

  lemma MetricLineAt(id: string)
    requires id == "01"
    ensures CallLine(RequestFor(GetMetric(id))) == "GET metric/01"
  {
    assert "GET" + " " + ("metric/" + id) == "GET metric/01";
    TestIdsEnd();
    MetricShape(id);
  }

  lemma MetricLine()
    ensures CallLine(RequestFor(GetMetric("01"))) == "GET metric/01"
  {
    MetricLineAt("01");
  }

  // ----- the machine sample -----

  /** With the month in range and no minutes, seconds or nanoseconds: whole days plus hours. */
  lemma WithinYear(year: int, month: int, day: int, hour: int)
    requires 1 <= month <= 12
    ensures Civil.UnixMilli(year, month, day, hour, 0, 0, 0) ==
      Civil.DaysFromCivil(year, month, day) * Civil.MillisPerDay + hour * 3_600_000
  {
    assert (month - 1) / 12 == 0 && (month - 1) % 12 + 1 == month;
  }

  lemma TestYear()
    ensures Civil.DaysBeforeYear(2023) == 19358
  {
  }

  /** 2023-10-27 is day 19657 of the Unix epoch. */
  lemma TestDay()
    ensures Civil.DaysFromCivil(2023, 10, 27) == 19657
  {
    TestYear();
    assert Civil.DaysBeforeMonth(2023, 10) == 273;
  }

  /** 2023-10-27 10:00:00 UTC in milliseconds since the Unix epoch. */
  lemma SampleTimestamp()
    ensures Civil.UnixMilli(2023, 10, 27, 10, 0, 0, 0) == 1698400800000
  {
    WithinYear(2023, 10, 27, 10);
    TestDay();
  }

  /** The sample of the test; loads 1.01, 0.78 and 0.12 are held as thousandths. */
  const TestSample: MachineSample :=
    MachineSample(1698400800000, 1010, 780, 120, 12, 34, 12, 678, 567, 13, 14)

  lemma TimestampDigits()
    ensures IntToString(1698400800000) == "1698400800000"
  {
    assert NatToString(1698) == "1698";
    assert NatToString(16984) == "16984";
    assert NatToString(169840) == "169840";
    assert NatToString(1698400) == "1698400";
    assert NatToString(16984008) == "16984008";
    assert NatToString(169840080) == "169840080";
    assert NatToString(1698400800) == "1698400800";
    assert NatToString(16984008000) == "16984008000";
    assert NatToString(169840080000) == "169840080000";
  }

  lemma Load1Digits()
    ensures FormatMilli(1010) == "1.010"
  {
  }

  lemma Load5Digits()
    ensures FormatMilli(780) == "0.780"
  {
  }

  lemma Load15Digits()
    ensures FormatMilli(120) == "0.120"
  {
  }

  lemma CountDigits()
    ensures IntToString(12) == "12" && IntToString(34) == "34" && IntToString(678) == "678"
    ensures IntToString(567) == "567" && IntToString(13) == "13" && IntToString(14) == "14"
  {
  }

  const TestSampleValues: seq<string> :=
    ["1698400800000", "1.010", "0.780", "0.120", "12", "34", "12", "678", "567", "13", "14"]

  lemma TestSampleRendered()
    ensures SampleValues(TestSample) == TestSampleValues
  {
    TimestampDigits();
    Load1Digits();
    Load5Digits();
    Load15Digits();
    CountDigits();
  }

  /** The eleven fields the test expects, in wire order. */
  const TestSampleFields: seq<string> :=
    ["tstamp=1698400800000", "load1=1.010", "load5=0.780", "load15=0.120", "cpu=12", "mem=34",
     "disk=12", "diskRead=678", "diskWrite=567", "netRecv=13", "netSend=14"]

  lemma TestSampleLaidOutHead(vs: seq<string>)
    requires vs == TestSampleValues
    ensures forall i :: 0 <= i < 6 ==> SampleKeys[i] + "=" + vs[i] == TestSampleFields[i]
  {
    assert SampleKeys[0] + "=" + vs[0] == TestSampleFields[0];
    assert SampleKeys[1] + "=" + vs[1] == TestSampleFields[1];
    assert SampleKeys[2] + "=" + vs[2] == TestSampleFields[2];
    assert SampleKeys[3] + "=" + vs[3] == TestSampleFields[3];
    assert SampleKeys[4] + "=" + vs[4] == TestSampleFields[4];
    assert SampleKeys[5] + "=" + vs[5] == TestSampleFields[5];
  }

  lemma TestSampleLaidOutTail(vs: seq<string>)
    requires vs == TestSampleValues
    ensures forall i :: 6 <= i < 11 ==> SampleKeys[i] + "=" + vs[i] == TestSampleFields[i]
  {
    assert SampleKeys[6] + "=" + vs[6] == TestSampleFields[6];
    assert SampleKeys[7] + "=" + vs[7] == TestSampleFields[7];
    assert SampleKeys[8] + "=" + vs[8] == TestSampleFields[8];
    assert SampleKeys[9] + "=" + vs[9] == TestSampleFields[9];
    assert SampleKeys[10] + "=" + vs[10] == TestSampleFields[10];
  }

  lemma TestSampleLaidOut(vs: seq<string>)
    requires vs == TestSampleValues
    ensures seq(11, i requires 0 <= i < 11 => SampleKeys[i] + "=" + vs[i]) == TestSampleFields
  {
    TestSampleLaidOutHead(vs);
    TestSampleLaidOutTail(vs);
  }

  lemma TestSampleBody(smp: MachineSample)
    requires smp == TestSample
    ensures SampleBody(smp) == Join(TestSampleFields, '&')
  {
    SampleBodyPlain(smp);
    TestSampleRendered();
    TestSampleLaidOut(SampleValues(smp));
  }

  lemma SampleWords(id: string)
    requires id == "00000001"
    ensures "POST" + " " + ("machine/" + id + "/sample") + " " == "POST machine/00000001/sample "
  {
  }

  lemma SampleShape(id: string, smp: MachineSample)
    ensures CallLine(RequestFor(PostMachineSample(id, smp))) ==
      "POST" + " " + ("machine/" + id + "/sample") + " " + SampleBody(smp)
  {
    var rq := Request("POST", "machine/" + id + "/sample", FormBody(Zip(SampleKeys, SampleValues(smp))));
    assert RequestFor(PostMachineSample(id, smp)) == rq;
    LineWithForm(rq.verb, rq.path, Zip(SampleKeys, SampleValues(smp)));
  }

  lemma SampleLineAt(id: string, smp: MachineSample)
    requires id == "00000001" && smp == TestSample
    ensures CallLine(RequestFor(PostMachineSample(id, smp))) ==
      "POST machine/00000001/sample " + Join(TestSampleFields, '&')
  {
    SampleShape(id, smp);
    SampleWords(id);
    TestSampleBody(smp);
  }

  /**
   * The sample line: verb, path and the eleven fields joined by '&', for the
   * sample whose timestamp is the epoch milliseconds of 2023-10-27T10:00Z.
   */
  lemma SampleLine()
    ensures TestSample.tstamp == Civil.UnixMilli(2023, 10, 27, 10, 0, 0, 0)
    ensures CallLine(RequestFor(PostMachineSample("00000001", TestSample))) ==
      "POST machine/00000001/sample " + Join(TestSampleFields, '&')
  {
    SampleTimestamp();
    SampleLineAt("00000001", TestSample);
  }

  // ----- the machine text -----

  /** Two words of unreserved characters, each closed by a line feed, then one more line feed. */
  lemma EncodeTwoLines(w1: string, w2: string)
    requires AllUnreserved(w1) && AllUnreserved(w2)
    ensures EncodeValue(w1 + "\n" + w2 + "\n" + "\n") == w1 + "%0A" + w2 + "%0A" + "%0A"
  {
    EncodeValueAppend(w1 + "\n" + w2 + "\n", "\n");
    EncodeValueAppend(w1 + "\n" + w2, "\n");
    EncodeValueAppend(w1 + "\n", w2);
    EncodeValueAppend(w1, "\n");
    EncodeUnreserved(w1);
    EncodeUnreserved(w2);
    EncodeLineFeed();
  }

  lemma TextEncoded(t: string)
    requires t == "line1\nline2\n\n"
    ensures EncodeValue(t) == "line1%0Aline2%0A%0A"
  {
    assert AllUnreserved("line1") && AllUnreserved("line2");
    assert "line1" + "%0A" + "line2" + "%0A" + "%0A" == "line1%0Aline2%0A%0A";
    assert t == "line1" + "\n" + "line2" + "\n" + "\n";
    EncodeTwoLines("line1", "line2");
  }

  lemma TextShape(id: string, t: string)
    ensures CallLine(RequestFor(PostMachineText(id, t))) ==
      "POST" + " " + ("machine/" + id + "/text") + " " + TextBody(t)
  {
    var rq := Request("POST", "machine/" + id + "/text", FormBody([("text", t)]));
    assert RequestFor(PostMachineText(id, t)) == rq;
    LineWithForm(rq.verb, rq.path, [("text", t)]);
  }

  lemma TextLineAt(id: string, t: string)
    requires id == "00000001" && t == "line1\nline2\n\n"
    ensures CallLine(RequestFor(PostMachineText(id, t))) ==
      "POST machine/00000001/text " + "text=line1%0Aline2%0A%0A"
  {
    assert "text" + "=" + "line1%0Aline2%0A%0A" == "text=line1%0Aline2%0A%0A";
    assert "POST" + " " + ("machine/" + id + "/text") + " " == "POST machine/00000001/text ";
    TextShape(id, t);
    TextEncoded(t);
  }

  /** Each line feed of the text goes out as %0A. */
  lemma TextLine()
    ensures CallLine(RequestFor(PostMachineText("00000001", "line1\nline2\n\n"))) ==
      "POST machine/00000001/text " + "text=line1%0Aline2%0A%0A"
  {
    TextLineAt("00000001", "line1\nline2\n\n");
  }

  // ----- the metric value -----

  lemma IncBody(v: int64)
    requires v == 42
    ensures ValueBody(v) == "value" + "=" + "42"
  {
    assert IntToString(42) == "42" && AllUnreserved("42");
    EncodeUnreserved("42");
  }

  lemma IncShape(id: string, v: int64)
    ensures CallLine(RequestFor(PostMetricInc(id, v))) == "POST" + " " + ("metric/" + id + "/inc") + " " + ValueBody(v)
  {
    var rq := Request("POST", "metric/" + id + "/inc", FormBody([("value", IntToString(v))]));
    assert RequestFor(PostMetricInc(id, v)) == rq;
    LineWithForm(rq.verb, rq.path, [("value", IntToString(v))]);
  }

  lemma IncLineAt(id: string, v: int64)
    requires id == "00000001" && v == 42
    ensures CallLine(RequestFor(PostMetricInc(id, v))) == "POST metric/00000001/inc " + "value=42"
  {
    assert "value" + "=" + "42" == "value=42";
    assert "POST" + " " + ("metric/" + id + "/inc") + " " == "POST metric/00000001/inc ";
    IncShape(id, v);
    IncBody(v);
  }

  lemma IncLine()
    ensures CallLine(RequestFor(PostMetricInc("00000001", 42))) == "POST metric/00000001/inc " + "value=42"
  {
    IncLineAt("00000001", 42);
  }

  lemma SetBody(v: int64)
    requires v == 113
    ensures ValueBody(v) == "value" + "=" + "113"
  {
    assert IntToString(113) == "113" && AllUnreserved("113");
    EncodeUnreserved("113");
  }

  lemma SetShape(id: string, v: int64)
    ensures CallLine(RequestFor(PostMetricSet(id, v))) == "POST" + " " + ("metric/" + id + "/set") + " " + ValueBody(v)
  {
    var rq := Request("POST", "metric/" + id + "/set", FormBody([("value", IntToString(v))]));
    assert RequestFor(PostMetricSet(id, v)) == rq;
    LineWithForm(rq.verb, rq.path, [("value", IntToString(v))]);
  }

  lemma SetLineAt(id: string, v: int64)
    requires id == "00000001" && v == 113
    ensures CallLine(RequestFor(PostMetricSet(id, v))) == "POST metric/00000001/set " + "value=113"
  {
    assert "value" + "=" + "113" == "value=113";
    assert "POST" + " " + ("metric/" + id + "/set") + " " == "POST metric/00000001/set ";
    SetShape(id, v);
    SetBody(v);
  }

  lemma SetLine()
    ensures CallLine(RequestFor(PostMetricSet("00000001", 113))) == "POST metric/00000001/set " + "value=113"
  {
    SetLineAt("00000001", 113);
  }

  // ----- the metric value batch -----

  lemma InsertStep8()
    ensures Insert(1, []) == [1]
  {
  }

  lemma SortedSuffix8(s: seq<int>)
    requires s == [1]
    ensures Sort(s) == [1]
  {
    InsertStep8();
  }

  lemma InsertStep7()
    ensures Insert(3, [1]) == [1, 3]
  {
  }

  lemma SortedSuffix7(s: seq<int>)
    requires s == [3, 1]
    ensures Sort(s) == [1, 3]
  {
    SortedSuffix8(s[1..]);
    InsertStep7();
  }

  lemma InsertStep6()
    ensures Insert(4, [1, 3]) == [1, 3, 4]
  {
  }

  lemma SortedSuffix6(s: seq<int>)
    requires s == [4, 3, 1]
    ensures Sort(s) == [1, 3, 4]
  {
    SortedSuffix7(s[1..]);
    InsertStep6();
  }

  lemma InsertStep5()
    ensures Insert(3, [1, 3, 4]) == [1, 3, 3, 4]
  {
  }

  lemma SortedSuffix5(s: seq<int>)
    requires s == [3, 4, 3, 1]
    ensures Sort(s) == [1, 3, 3, 4]
  {
    SortedSuffix6(s[1..]);
    InsertStep5();
  }

  lemma InsertStep4()
    ensures Insert(0, [1, 3, 3, 4]) == [0, 1, 3, 3, 4]
  {
  }

  lemma SortedSuffix4(s: seq<int>)
    requires s == [0, 3, 4, 3, 1]
    ensures Sort(s) == [0, 1, 3, 3, 4]
  {
    SortedSuffix5(s[1..]);
    InsertStep4();
  }

  lemma InsertStep3()
    ensures Insert(5, [0, 1, 3, 3, 4]) == [0, 1, 3, 3, 4, 5]
  {
  }

  lemma SortedSuffix3(s: seq<int>)
    requires s == [5, 0, 3, 4, 3, 1]
    ensures Sort(s) == [0, 1, 3, 3, 4, 5]
  {
    SortedSuffix4(s[1..]);
    InsertStep3();
  }

  lemma InsertStep2()
    ensures Insert(2, [0, 1, 3, 3, 4, 5]) == [0, 1, 2, 3, 3, 4, 5]
  {
  }

  lemma SortedSuffix2(s: seq<int>)
    requires s == [2, 5, 0, 3, 4, 3, 1]
    ensures Sort(s) == [0, 1, 2, 3, 3, 4, 5]
  {
    SortedSuffix3(s[1..]);
    InsertStep2();
  }

  lemma InsertStep1()
    ensures Insert(5, [0, 1, 2, 3, 3, 4, 5]) == [0, 1, 2, 3, 3, 4, 5, 5]
  {
  }

  lemma SortedSuffix1(s: seq<int>)
    requires s == [5, 2, 5, 0, 3, 4, 3, 1]
    ensures Sort(s) == [0, 1, 2, 3, 3, 4, 5, 5]
  {
    SortedSuffix2(s[1..]);
    InsertStep1();
  }

  lemma InsertStep0()
    ensures Insert(3, [0, 1, 2, 3, 3, 4, 5, 5]) == [0, 1, 2, 3, 3, 3, 4, 5, 5]
  {
  }

  lemma SortedSuffix0(s: seq<int>)
    requires s == [3, 5, 2, 5, 0, 3, 4, 3, 1]
    ensures Sort(s) == [0, 1, 2, 3, 3, 3, 4, 5, 5]
  {
    SortedSuffix1(s[1..]);
    InsertStep0();
  }

  lemma RunsFrom0(s: seq<int>)
    requires s == [0, 1, 2, 3, 3, 3, 4, 5, 5]
    ensures Runs(s) == [Run(0, 1), Run(1, 1), Run(2, 1), Run(3, 3), Run(4, 1), Run(5, 2)]
  {
    assert [Run(0, 1)] + [Run(1, 1), Run(2, 1), Run(3, 3), Run(4, 1), Run(5, 2)] == [Run(0, 1), Run(1, 1), Run(2, 1), Run(3, 3), Run(4, 1), Run(5, 2)];
    RunsFrom1(s[1..]);
    RunsHead(s, 1);
  }

  lemma RunsFrom1(s: seq<int>)
    requires s == [1, 2, 3, 3, 3, 4, 5, 5]
    ensures Runs(s) == [Run(1, 1), Run(2, 1), Run(3, 3), Run(4, 1), Run(5, 2)]
  {
    assert [Run(1, 1)] + [Run(2, 1), Run(3, 3), Run(4, 1), Run(5, 2)] == [Run(1, 1), Run(2, 1), Run(3, 3), Run(4, 1), Run(5, 2)];
    RunsFrom2(s[1..]);
    RunsHead(s, 1);
  }

  lemma RunsFrom2(s: seq<int>)
    requires s == [2, 3, 3, 3, 4, 5, 5]
    ensures Runs(s) == [Run(2, 1), Run(3, 3), Run(4, 1), Run(5, 2)]
  {
    assert [Run(2, 1)] + [Run(3, 3), Run(4, 1), Run(5, 2)] == [Run(2, 1), Run(3, 3), Run(4, 1), Run(5, 2)];
    RunsFrom3(s[1..]);
    RunsHead(s, 1);
  }

  lemma RunsFrom3(s: seq<int>)
    requires s == [3, 3, 3, 4, 5, 5]
    ensures Runs(s) == [Run(3, 3), Run(4, 1), Run(5, 2)]
  {
    assert [Run(3, 3)] + [Run(4, 1), Run(5, 2)] == [Run(3, 3), Run(4, 1), Run(5, 2)];
    RunsFrom6(s[3..]);
    RunsHead(s, 3);
  }

  lemma RunsFrom6(s: seq<int>)
    requires s == [4, 5, 5]
    ensures Runs(s) == [Run(4, 1), Run(5, 2)]
  {
    assert [Run(4, 1)] + [Run(5, 2)] == [Run(4, 1), Run(5, 2)];
    RunsFrom7(s[1..]);
    RunsHead(s, 1);
  }

  lemma RunsFrom7(s: seq<int>)
    requires s == [5, 5]
    ensures Runs(s) == [Run(5, 2)]
  {
    RunsHead(s, 2);
  }

  lemma RenderedRuns()
    ensures RenderRun(Run(0, 1)) == "0" && RenderRun(Run(1, 1)) == "1" && RenderRun(Run(2, 1)) == "2"
    ensures RenderRun(Run(3, 3)) == "3:3" && RenderRun(Run(4, 1)) == "4" && RenderRun(Run(5, 2)) == "5:2"
  {
  }

  lemma RenderedTest(rs: seq<Run>)
    requires rs == [Run(0, 1), Run(1, 1), Run(2, 1), Run(3, 3), Run(4, 1), Run(5, 2)]
    ensures Render(rs) == ["0", "1", "2", "3:3", "4", "5:2"]
  {
    RenderedRuns();
  }

  lemma JoinedTest()
    ensures Join(["0", "1", "2", "3:3", "4", "5:2"], ',') == "0,1,2,3:3,4,5:2"
  {
  }

  lemma CompactAt(vs: seq<int>)
    requires vs == [3, 5, 2, 5, 0, 3, 4, 3, 1]
    ensures Compact(vs) == "0,1,2,3:3,4,5:2"
  {
    SortedSuffix0(vs);
    RunsFrom0(Sort(vs));
    RenderedTest(Runs(Sort(vs)));
    JoinedTest();
  }

  /** The batch of the test: seven distinct values, 3 three times and 5 twice. */
  lemma CompactTest()
    ensures Compact([3, 5, 2, 5, 0, 3, 4, 3, 1]) == "0,1,2,3:3,4,5:2"
  {
    CompactAt([3, 5, 2, 5, 0, 3, 4, 3, 1]);
  }

  /** Appending an unreserved word after a separator whose encoding is e. */
  lemma EncodeThen(a: string, c: string, e: string, d: string)
    requires EncodeValue(c) == e && AllUnreserved(d)
    ensures EncodeValue(a + c + d) == EncodeValue(a) + e + d
  {
    EncodeValueAppend(a + c, d);
    EncodeValueAppend(a, c);
    EncodeUnreserved(d);
  }

  /** The shape of the test's compact batch, with its digits left open. */
  lemma EncodeBatchShape(d0: string, d1: string, d2: string, d3: string, d4: string, d5: string, d6: string, d7: string)
    requires AllUnreserved(d0) && AllUnreserved(d1) && AllUnreserved(d2) && AllUnreserved(d3)
    requires AllUnreserved(d4) && AllUnreserved(d5) && AllUnreserved(d6) && AllUnreserved(d7)
    ensures EncodeValue(d0 + "," + d1 + "," + d2 + "," + d3 + ":" + d4 + "," + d5 + "," + d6 + ":" + d7) ==
      d0 + "%2C" + d1 + "%2C" + d2 + "%2C" + d3 + "%3A" + d4 + "%2C" + d5 + "%2C" + d6 + "%3A" + d7
  {
    assert EncodeValue(",") == "%2C" && EncodeValue(":") == "%3A";
    EncodeUnreserved(d0);
    EncodeThen(d0, ",", "%2C", d1);
    EncodeThen(d0 + "," + d1, ",", "%2C", d2);
    EncodeThen(d0 + "," + d1 + "," + d2, ",", "%2C", d3);
    EncodeThen(d0 + "," + d1 + "," + d2 + "," + d3, ":", "%3A", d4);
    EncodeThen(d0 + "," + d1 + "," + d2 + "," + d3 + ":" + d4, ",", "%2C", d5);
    EncodeThen(d0 + "," + d1 + "," + d2 + "," + d3 + ":" + d4 + "," + d5, ",", "%2C", d6);
    EncodeThen(d0 + "," + d1 + "," + d2 + "," + d3 + ":" + d4 + "," + d5 + "," + d6, ":", "%3A", d7);
  }

  lemma BatchSplit(c: string)
    requires c == "0,1,2,3:3,4,5:2"
    ensures c == "0" + "," + "1" + "," + "2" + "," + "3" + ":" + "3" + "," + "4" + "," + "5" + ":" + "2"
  {
  }

  lemma BatchDigitsPlain()
    ensures AllUnreserved("0") && AllUnreserved("1") && AllUnreserved("2") && AllUnreserved("3")
    ensures AllUnreserved("4") && AllUnreserved("5")
  {
  }

  lemma BatchJoined()
    ensures "0" + "%2C" + "1" + "%2C" + "2" + "%2C" + "3" + "%3A" + "3" + "%2C" + "4" + "%2C" + "5" + "%3A" + "2" ==
      "0%2C1%2C2%2C3%3A3%2C4%2C5%3A2"
  {
  }

  lemma BatchEncoded(c: string)
    requires c == "0,1,2,3:3,4,5:2"
    ensures EncodeValue(c) == "0%2C1%2C2%2C3%3A3%2C4%2C5%3A2"
  {
    BatchSplit(c);
    BatchDigitsPlain();
    EncodeBatchShape("0", "1", "2", "3", "3", "4", "5", "2");
    BatchJoined();
  }

  lemma ValuesBodyAt(vs: seq<int64>)
    requires vs == [3, 5, 2, 5, 0, 3, 4, 3, 1]
    ensures ValuesBody(vs) == "values" + "=" + "0%2C1%2C2%2C3%3A3%2C4%2C5%3A2"
  {
    CompactAt(vs);
    BatchEncoded(Compact(vs));
  }

  lemma ValuesShape(id: string, vs: seq<int64>)
    ensures CallLine(RequestFor(PostMetricValues(id, vs))) ==
      "POST" + " " + ("metric/" + id + "/values") + " " + ValuesBody(vs)
  {
    var rq := Request("POST", "metric/" + id + "/values", FormBody([("values", Compact(vs))]));
    assert RequestFor(PostMetricValues(id, vs)) == rq;
    LineWithForm(rq.verb, rq.path, [("values", Compact(vs))]);
  }

  lemma ValuesLineAt(id: string, vs: seq<int64>)
    requires id == "010101" && vs == [3, 5, 2, 5, 0, 3, 4, 3, 1]
    ensures CallLine(RequestFor(PostMetricValues(id, vs))) ==
      "POST metric/010101/values " + ("values=" + "0%2C1%2C2%2C3%3A3%2C4%2C5%3A2")
  {
    assert "values" + "=" == "values=";
    assert "POST" + " " + ("metric/" + id + "/values") + " " == "POST metric/010101/values ";
    ValuesShape(id, vs);
    ValuesBodyAt(vs);
  }

  /** The batch goes out compacted, its ',' and ':' percent-encoded. */
  lemma ValuesLine()
    ensures CallLine(RequestFor(PostMetricValues("010101", [3, 5, 2, 5, 0, 3, 4, 3, 1]))) ==
      "POST metric/010101/values " + ("values=" + "0%2C1%2C2%2C3%3A3%2C4%2C5%3A2")
  {
    ValuesLineAt("010101", [3, 5, 2, 5, 0, 3, 4, 3, 1]);
  }

  // ----- the whole test on one fake sender -----

  /** The reply queued for the cases that succeed; the payload is not decoded here. */
  const Answered: Reply := Reply([], None)

  /** The reply queued for the metric updates: the sender fails with "connect timeout". */
  const Timeout: Reply := Reply([], Some("connect timeout"))

  /**
   * One case of the test: forget the calls logged so far, queue one reply,
   * run the operation. The queue was empty, so the operation gets that
   * reply, exactly one line is logged and the queue is empty again.
   */
  method RunOn(api: Api, op: Op, reply: Reply) returns (line: string, err: Option<string>)
    requires api.sender.responses == []
    modifies api.sender
    ensures api.sender.calls == [line] && api.sender.responses == []
    ensures line == CallLine(RequestFor(op)) && err == reply.err
  {
    api.sender.ClearCalls();
    api.sender.Enqueue(reply);
    var data;
    data, err := api.Call(op);
    line := api.sender.calls[0];
  }

  /** Every line the test expects, in the order of its cases. */
  const TestLines: seq<string> := [
    "GET ping",
    "GET watchdogs",
    "GET watchdog/00000001",
    "POST watchdog/00000001/heartbeat",
    "GET machines",
    "GET machine/01",
    "POST machine/00000001/sample " + Join(TestSampleFields, '&'),
    "POST machine/00000001/text " + "text=line1%0Aline2%0A%0A",
    "GET metrics",
    "GET metric/01",
    "POST metric/00000001/inc " + "value=42",
    "POST metric/00000001/set " + "value=113",
    "POST metric/010101/values " + ("values=" + "0%2C1%2C2%2C3%3A3%2C4%2C5%3A2")]

  /**
   * The whole test: one fake sender, each case logging exactly its line,
   * the ten queries and notifications succeeding and the three metric
   * updates failing with the sender's error, unchanged.
   */
  method ReplayTestApi() returns (lines: seq<string>, errs: seq<Option<string>>, pending: nat)
    ensures lines == TestLines
    ensures errs == [None, None, None, None, None, None, None, None, None, None,
      Some("connect timeout"), Some("connect timeout"), Some("connect timeout")]
    ensures pending == 0
  {
    var sender := new FakeSender();
    var api := new Api(sender);
    var l0, e0 := RunOn(api, GetPing, Answered);
    PingLine();
    var l1, e1 := RunOn(api, GetWatchdogs, Answered);
    WatchdogsLine();
    var l2, e2 := RunOn(api, GetWatchdog("00000001"), Answered);
    WatchdogLine();
    var l3, e3 := RunOn(api, PostWatchdogHeartbeat("00000001"), Answered);
    HeartbeatLine();
    var l4, e4 := RunOn(api, GetMachines, Answered);
    MachinesLine();
    var l5, e5 := RunOn(api, GetMachine("01"), Answered);
    MachineLine();
    var l6, e6 := RunOn(api, PostMachineSample("00000001", TestSample), Answered);
    SampleLine();
    var l7, e7 := RunOn(api, PostMachineText("00000001", "line1\nline2\n\n"), Answered);
    TextLine();
    var l8, e8 := RunOn(api, GetMetrics, Answered);
    MetricsLine();
    var l9, e9 := RunOn(api, GetMetric("01"), Answered);
    MetricLine();
    var l10, e10 := RunOn(api, PostMetricInc("00000001", 42), Timeout);
    IncLine();
    var l11, e11 := RunOn(api, PostMetricSet("00000001", 113), Timeout);
    SetLine();
    var l12, e12 := RunOn(api, PostMetricValues("010101", [3, 5, 2, 5, 0, 3, 4, 3, 1]), Timeout);
    ValuesLine();
    lines := [l0, l1, l2, l3, l4, l5, l6, l7, l8, l9, l10, l11, l12];
    errs := [e0, e1, e2, e3, e4, e5, e6, e7, e8, e9, e10, e11, e12];
    pending := |sender.responses|;
  }
}
