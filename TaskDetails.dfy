/**
  The task details page (front/src/pages/TaskDetails.tsx): the list of
  generated tasks, a set of completed task ids toggled one at a time, the
  progress figures derived from them, and the share dialog.
*/
module TaskDetails {
  import opened Wrappers

  // ----- tasks -----

  datatype Task = Task(
    id: string, title: string, description: string, location: string, estimatedTime: string,
    difficulty: string, points: int, tips: string, category: string)

  /** The five tasks the page loads. */
  const MockTasks: seq<Task> := [
    Task("1", "寻找隐藏的咖啡角落", "在三里屯的小巷中找到一家只有本地人知道的咖啡店，品尝他们的招牌拿铁",
         "三里屯SOHO附近", "30分钟", "easy", 50, "询问当地居民或查看小巷深处的招牌", "foodie"),
    Task("2", "捕捉街头艺术瞬间", "拍摄三里屯街头的涂鸦艺术，记录城市文化的多样性",
         "三里屯酒吧街", "45分钟", "medium", 75, "最佳拍摄时间是下午4-6点，光线柔和", "photographer"),
    Task("3", "与街头音乐人互动", "找到在三里屯表演的街头音乐人，聆听他们的故事并合影留念",
         "三里屯太古里广场", "20分钟", "easy", 60, "通常在周末下午会有更多表演者", "social"),
    Task("4", "探索创意市集", "参观三里屯的创意市集，发现独特的手工艺品和设计师作品",
         "三里屯Village", "60分钟", "medium", 80, "周末市集商品更丰富，可以和摊主聊聊创作故事", "artistic"),
    Task("5", "品尝国际美食", "在三里屯尝试一种你从未品尝过的国际料理",
         "三里屯美食街", "90分钟", "hard", 100, "可以选择人气较高的餐厅，或者询问服务员推荐", "foodie")
  ]

  /** The ids of a task list. */
  function IdsOf(tasks: seq<Task>): (ids: set<string>)
    ensures forall i :: 0 <= i < |tasks| ==> tasks[i].id in ids
    ensures forall x :: x in ids ==> exists i :: 0 <= i < |tasks| && tasks[i].id == x
  {
    if tasks == [] then {}
    else IdsOf(tasks[..|tasks| - 1]) + {tasks[|tasks| - 1].id}
  }

  predicate DistinctIds(tasks: seq<Task>) {
    forall i, j :: 0 <= i < j < |tasks| ==> tasks[i].id != tasks[j].id
  }

  /** A list with distinct ids has exactly as many ids as tasks. */
  lemma {:induction false} IdsOfSize(tasks: seq<Task>)
    requires DistinctIds(tasks)
    ensures |IdsOf(tasks)| == |tasks|
  {
    if tasks != [] {
      var init := tasks[..|tasks| - 1];
      assert DistinctIds(init);
      IdsOfSize(init);
    }
  }

  /** The loaded tasks have distinct ids, add up to 365 points, and all have a known difficulty. */
  lemma MockTasksFacts()
    ensures |MockTasks| == 5 && DistinctIds(MockTasks)
    ensures SumPoints(MockTasks) == 365
    ensures forall i :: 0 <= i < |MockTasks| ==> KnownDifficulty(MockTasks[i].difficulty)
  {
    var t := MockTasks;
    assert t[..1][..0] == [];
    assert SumPoints(t[..1]) == 50;
    assert t[..2][..1] == t[..1];
    assert SumPoints(t[..2]) == 125;
    assert t[..3][..2] == t[..2];
    assert SumPoints(t[..3]) == 185;
    assert t[..4][..3] == t[..3];
    assert SumPoints(t[..4]) == 265;
    assert t[..4] == t[..|t| - 1];
  }

  // ----- completion -----

  /** The completed-set update of `toggleTaskCompletion`. */
  function Toggled(completed: set<string>, id: string): (r: set<string>)
    ensures id in r <==> id !in completed
    ensures forall x :: x != id ==> (x in r <==> x in completed)
  {
    if id in completed then completed - {id} else completed + {id}
  }

  /** Toggling the same task twice leaves the completed set as it was. */
  lemma ToggleTwice(completed: set<string>, id: string)
    ensures Toggled(Toggled(completed, id), id) == completed
  {
  }

  /** Toggling a listed task keeps the completed set within the list's ids. */
  lemma ToggleStaysListed(tasks: seq<Task>, completed: set<string>, i: nat)
    requires completed <= IdsOf(tasks) && i < |tasks|
    ensures Toggled(completed, tasks[i].id) <= IdsOf(tasks)
  {
  }

  /** The sum of all points of a list. */
  function SumPoints(tasks: seq<Task>): int {
    if tasks == [] then 0 else SumPoints(tasks[..|tasks| - 1]) + tasks[|tasks| - 1].points
  }

  /** `totalPoints`: the left fold adding the points of each completed task. */
  function TotalPoints(tasks: seq<Task>, completed: set<string>): int {
    if tasks == [] then 0
    else
      var last := tasks[|tasks| - 1];
      TotalPoints(tasks[..|tasks| - 1], completed) + (if last.id in completed then last.points else 0)
  }

  predicate NonNegativePoints(tasks: seq<Task>) {
    forall i :: 0 <= i < |tasks| ==> tasks[i].points >= 0
  }

  /** With non-negative points the total lies between 0 and the sum of all points. */
  lemma {:induction false} TotalPointsBounds(tasks: seq<Task>, completed: set<string>)
    requires NonNegativePoints(tasks)
    ensures 0 <= TotalPoints(tasks, completed) <= SumPoints(tasks)
  {
    if tasks != [] {
      TotalPointsBounds(tasks[..|tasks| - 1], completed);
    }
  }

  /** Nothing completed earns nothing; every listed task completed earns the full sum. */
  lemma {:induction false} TotalPointsExtremes(tasks: seq<Task>, completed: set<string>)
    ensures completed * IdsOf(tasks) == {} ==> TotalPoints(tasks, completed) == 0
    ensures IdsOf(tasks) <= completed ==> TotalPoints(tasks, completed) == SumPoints(tasks)
  {
    if tasks != [] {
      var init := tasks[..|tasks| - 1];
      assert IdsOf(tasks) == IdsOf(init) + {tasks[|tasks| - 1].id};
      TotalPointsExtremes(init, completed);
    }
  }

  /** Completing a task that is not yet complete adds exactly its points (ids distinct). */
  lemma {:induction false} CompletingAddsPoints(tasks: seq<Task>, completed: set<string>, i: nat)
    requires DistinctIds(tasks) && i < |tasks| && tasks[i].id !in completed
    ensures TotalPoints(tasks, Toggled(completed, tasks[i].id)) == TotalPoints(tasks, completed) + tasks[i].points
  {
    var init := tasks[..|tasks| - 1];
    assert DistinctIds(init);
    if i < |tasks| - 1 {
      assert init[i] == tasks[i];
      CompletingAddsPoints(init, completed, i);
    } else {
      PointsIgnoreOtherIds(init, completed, tasks[i].id);
    }
  }

  /** Adding an id that no task in the list carries leaves the total unchanged. */
  lemma {:induction false} PointsIgnoreOtherIds(tasks: seq<Task>, completed: set<string>, id: string)
    requires id !in IdsOf(tasks)
    ensures TotalPoints(tasks, completed + {id}) == TotalPoints(tasks, completed)
  {
    if tasks != [] {
      PointsIgnoreOtherIds(tasks[..|tasks| - 1], completed, id);
    }
  }

  /** `completionRate`: the completed share of the list in percent, 0 for an empty list. */
  function CompletionRate(tasks: seq<Task>, completed: set<string>): (r: real)
    ensures tasks == [] ==> r == 0.0
    ensures r >= 0.0
  {
    if |tasks| > 0 then (|completed| as real / |tasks| as real) * 100.0 else 0.0
  }

  /** The condition under which the page shows its all-done banner. */
  predicate AllCompleteBanner(tasks: seq<Task>, completed: set<string>) {
    |tasks| > 0 && |completed| == |tasks|
  }

  /** A subset is no larger than its superset, and as large only when they are equal. */
  lemma SubsetSize<T>(a: set<T>, b: set<T>)
    requires a <= b
    ensures |a| <= |b|
    ensures |a| == |b| <==> a == b
  {
    assert b == a + (b - a);
    assert |b| == |a| + |b - a|;
    if |a| == |b| {
      assert b - a == {};
    }
  }

  /** Within a list of distinct ids, equal sizes means every listed task is complete. */
  lemma SameSizeSubsetIsAll(tasks: seq<Task>, completed: set<string>)
    requires DistinctIds(tasks) && completed <= IdsOf(tasks)
    ensures |completed| <= |tasks|
    ensures |completed| == |tasks| <==> IdsOf(tasks) <= completed
  {
    IdsOfSize(tasks);
    SubsetSize(completed, IdsOf(tasks));
  }

  /** The percentage of `k` out of `n` is at most 100, and exactly 100 when `k` is `n`. */
  lemma PercentBounds(k: nat, n: nat)
    requires 0 < n && k <= n
    ensures (k as real / n as real) * 100.0 <= 100.0
    ensures (k as real / n as real) * 100.0 == 100.0 <==> k == n
  {
    var q := k as real / n as real;
    assert q * (n as real) == k as real;
    if k < n {
      assert q < 1.0;
    }
  }

  /**
    When the completed ids are ids of a list with distinct ids, the banner
    shows exactly when the list is non-empty and every task is complete, and
    the rate stays within 0 to 100, reaching 100 exactly then.
  */
  lemma {:induction false} BannerIffAllComplete(tasks: seq<Task>, completed: set<string>)
    requires DistinctIds(tasks) && completed <= IdsOf(tasks)
    ensures AllCompleteBanner(tasks, completed) <==>
      |tasks| > 0 && forall i :: 0 <= i < |tasks| ==> tasks[i].id in completed
    ensures CompletionRate(tasks, completed) <= 100.0
    ensures CompletionRate(tasks, completed) == 100.0 <==> AllCompleteBanner(tasks, completed)
  {
    SameSizeSubsetIsAll(tasks, completed);
    if |tasks| > 0 {
      PercentBounds(|completed|, |tasks|);
    }
  }

  /** Once every listed task is complete, the total is the sum of all points. */
  lemma BannerTotal(tasks: seq<Task>, completed: set<string>)
    requires DistinctIds(tasks) && completed <= IdsOf(tasks) && AllCompleteBanner(tasks, completed)
    ensures TotalPoints(tasks, completed) == SumPoints(tasks)
  {
    SameSizeSubsetIsAll(tasks, completed);
    TotalPointsExtremes(tasks, completed);
  }

  // ----- the pixel theme's status bar -----

  datatype PixelStatus = PixelStatus(level: int, exp: int, maxExp: int, coins: int, health: int, maxHealth: int)

  /** The status bar values for `done` completed tasks. */
  function PixelStatusOf(done: nat): (s: PixelStatus)
    ensures s.level >= 1 && (s.level - 1) * 3 <= done < s.level * 3
    ensures s.exp == 2 * s.coins && s.coins == 5 * done
    ensures s.maxExp == 100 && s.health == s.maxHealth == 100
  {
    PixelStatus(done / 3 + 1, done * 10, 100, done * 5, 100, 100)
  }

  /** Completing more tasks never lowers the level; the five loaded tasks keep experience within its maximum. */
  lemma PixelStatusMonotone(a: nat, b: nat)
    requires a <= b
    ensures PixelStatusOf(a).level <= PixelStatusOf(b).level
    ensures b <= |MockTasks| ==> PixelStatusOf(b).exp <= PixelStatusOf(b).maxExp
  {
  }

  // ----- difficulty labels -----

  predicate KnownDifficulty(d: string) {
    d == "easy" || d == "medium" || d == "hard"
  }

  /** `getDifficultyText`. */
  function DifficultyText(d: string): (t: string)
    ensures t == "未知" <==> !KnownDifficulty(d)
  {
    if d == "easy" then "轻松"
    else if d == "medium" then "中等"
    else if d == "hard" then "挑战"
    else "未知"
  }

  /** `getDifficultyColor`. */
  function DifficultyColor(d: string): (c: string)
    ensures c == "text-gray-600 bg-gray-100" <==> !KnownDifficulty(d)
  {
    if d == "easy" then "text-green-600 bg-green-100"
    else if d == "medium" then "text-yellow-600 bg-yellow-100"
    else if d == "hard" then "text-red-600 bg-red-100"
    else "text-gray-600 bg-gray-100"
  }

  /** Text and colour agree: each known level has its own label and colour, the rest share the fallback. */
  lemma DifficultyLabelsAgree(d1: string, d2: string)
    ensures DifficultyText(d1) == DifficultyText(d2) <==> DifficultyColor(d1) == DifficultyColor(d2)
    ensures KnownDifficulty(d1) ==> (DifficultyText(d1) == DifficultyText(d2) <==> d1 == d2)
  {
  }

  // ----- the page state -----

  class TaskDetailsPage {
    var tasks: seq<Task>
    var completed: set<string>
    var showShareModal: bool
    var selectedTask: Option<Task>

    constructor ()
      ensures tasks == [] && completed == {} && !showShareModal && selectedTask == None
    {
      tasks := [];
      completed := {};
      showShareModal := false;
      selectedTask := None;
    }

    /** The completed ids all belong to listed tasks, whose ids are distinct. */
    predicate Valid()
      reads this
    {
      DistinctIds(tasks) && completed <= IdsOf(tasks)
    }

    /** The mount effect's load timer fires: the still-empty task list becomes the five tasks. */
    method LoadTasks()
      requires Valid() && tasks == []
      modifies this`tasks
      ensures tasks == MockTasks && completed == old(completed)
      ensures Valid()
    {
      MockTasksFacts();
      tasks := MockTasks;
    }

    /** `toggleTaskCompletion` for the task shown at position `i`. */
    method ToggleTaskCompletion(i: nat)
      requires Valid() && i < |tasks|
      modifies this`completed
      ensures completed == Toggled(old(completed), tasks[i].id)
      ensures Valid()
    {
      var id := tasks[i].id;
      if id in completed {
        completed := completed - {id};
      } else {
        completed := completed + {id};
      }
      ToggleStaysListed(tasks, old(completed), i);
    }

    /** `openShareModal`: remember the task and show the dialog. */
    method OpenShareModal(t: Task)
      modifies this`selectedTask, this`showShareModal
      ensures selectedTask == Some(t) && showShareModal
    {
      selectedTask := Some(t);
      showShareModal := true;
    }

    /** The banner's share button: show the dialog, keeping whatever task was selected. */
    method ShowShareModal()
      modifies this`showShareModal
      ensures showShareModal
    {
      showShareModal := true;
    }

    /** `closeShareModal`: hide the dialog and forget the task. */
    method CloseShareModal()
      modifies this`selectedTask, this`showShareModal
      ensures selectedTask == None && !showShareModal
    {
      showShareModal := false;
      selectedTask := None;
    }
  }
}
