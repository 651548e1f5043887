/**
 * games/snake/game/gameobject.py: the snake. Its body is a deque of
 * segments; each move takes the tail segment to the head's old position
 * and puts it at the front, then moves the head 10 units in the chosen
 * direction. Positions are the segments' top-left corners.
 */
module SnakeGameObject {
  import opened Geometry

  datatype SnakeAction = UP | DOWN | LEFT | RIGHT | NONE

  /** `_get_possible_head_pos`: one step of 10 units in the direction of an action. */
  function Step(p: Point, a: SnakeAction): (q: Point)
    requires a != NONE
    ensures (q.x - p.x) * (q.x - p.x) + (q.y - p.y) * (q.y - p.y) == 100
  {
    match a
    case UP => Point(p.x, p.y - 10)
    case DOWN => Point(p.x, p.y + 10)
    case LEFT => Point(p.x - 10, p.y)
    case RIGHT => Point(p.x + 10, p.y)
  }

  /** The head, the body segments from the head side to the tail, and the last action taken. */
  datatype SnakeState = SnakeState(head: Point, body: seq<Point>, action: SnakeAction)

  /** A new snake: head at (40, 40), three segments above it, going down. */
  const INITIAL_SNAKE := SnakeState(Point(40, 40), [Point(40, 30), Point(40, 20), Point(40, 10)], DOWN)

  /**
   * The shape every snake keeps: at least three segments, a last action
   * that is a direction, and the head one step from the first segment in
   * that direction.
   */
  predicate Consistent(s: SnakeState) {
    |s.body| >= 3 && s.action != NONE && s.head == Step(s.body[0], s.action)
  }

  /**
   * The action a move takes: NONE means the last action, and an action
   * that would put the head on the segment behind it is replaced by the
   * last action too.
   */
  function EffectiveAction(s: SnakeState, a: SnakeAction): (e: SnakeAction)
    requires s.action != NONE && |s.body| >= 1
    ensures e != NONE
  {
    var wanted := if a == NONE then s.action else a;
    if Step(s.head, wanted) == s.body[0] then s.action else wanted
  }

  /**
   * `move`: the body keeps its length, its first segment takes the old head
   * position and every other segment the position of the one in front of
   * it; the head steps in the effective direction, which is stored.
   */
  function Moved(s: SnakeState, a: SnakeAction): (r: SnakeState)
    requires Consistent(s)
    ensures Consistent(r)
    ensures |r.body| == |s.body| && r.body[0] == s.head
    ensures forall i :: 0 <= i < |s.body| - 1 ==> r.body[i + 1] == s.body[i]
    ensures forall p :: p in r.body ==> p == s.head || p in s.body
  {
    var e := EffectiveAction(s, a);
    SnakeState(Step(s.head, e), [s.head] + s.body[..|s.body| - 1], e)
  }

  /** NONE and a reversal keep the last action; any other action is taken. */
  lemma MovedAction(s: SnakeState, a: SnakeAction)
    requires Consistent(s)
    ensures a == NONE ==> Moved(s, a).action == s.action
    ensures a != NONE && Step(s.head, a) == s.body[0] ==> Moved(s, a).action == s.action
    ensures a != NONE && Step(s.head, a) != s.body[0] ==> Moved(s, a).action == a
  {
  }

  /** The head never turns back onto the segment right behind it. */
  lemma {:induction false} NoReversal(s: SnakeState, a: SnakeAction)
    requires Consistent(s)
    ensures Moved(s, a).head != Moved(s, a).body[1]
  {
    var r := Moved(s, a);
    assert r.body[1] == s.body[0];
    var e := EffectiveAction(s, a);
    if e == s.action {
      OppositeSteps(s.body[0], s.action);
    }
  }

  /** Stepping forward from a point never lands on the point one step back. */
  lemma OppositeSteps(p: Point, a: SnakeAction)
    requires a != NONE
    ensures Step(Step(p, a), a) != p
  {
  }

  /** `grow`: one more segment, at the tail's position. */
  function Grown(s: SnakeState): (r: SnakeState)
    requires Consistent(s)
    ensures Consistent(r) && |r.body| == |s.body| + 1
    ensures r.head == s.head && r.action == s.action && r.body[..|s.body|] == s.body
    ensures r.body[|s.body|] == s.body[|s.body| - 1]
    ensures forall p :: p in r.body <==> p in s.body
  {
    SnakeState(s.head, s.body + [s.body[|s.body| - 1]], s.action)
  }

  /** `Snake`: the head position, the body positions and the last action. */
  class Snake {
    var head: Point
    var body: seq<Point>
    var action: SnakeAction

    function State(): SnakeState
      reads this
    {
      SnakeState(head, body, action)
    }

    ghost predicate Valid()
      reads this
    {
      Consistent(State())
    }

    constructor()
      ensures Valid() && State() == INITIAL_SNAKE
    {
      head := Point(40, 40);
      body := [Point(40, 30), Point(40, 20), Point(40, 10)];
      action := DOWN;
    }

    /** `is_body_pos`: some segment, the head excluded, is at the position. */
    method IsBodyPos(position: Point) returns (found: bool)
      ensures found <==> position in body
    {
      for i := 0 to |body|
        invariant forall j :: 0 <= j < i ==> body[j] != position
      {
        if body[i] == position {
          return true;
        }
      }
      return false;
    }

    /** `grow`: the new segment and its position, the old tail's. */
    method Grow() returns (segment: Point)
      requires Valid()
      modifies this
      ensures Valid() && State() == Grown(old(State()))
      ensures segment == old(body)[|old(body)| - 1]
    {
      segment := body[|body| - 1];
      body := body + [segment];
    }

    /** `move`: the snake moves as `Moved` says. */
    method Move(a: SnakeAction)
      requires Valid()
      modifies this
      ensures Valid() && State() == Moved(old(State()), a)
    {
      body := [head] + body[..|body| - 1];
      var act := a;
      if act == NONE {
        act := action;
      }
      var possibleHeadPos := Step(head, act);
      if body[1] == possibleHeadPos {
        act := action;
      }
      head := Step(head, act);
      action := act;
    }
  }
}

/**
 * games/snake/game/gamecore.py: the scene of the snake game on a 300 x 300
 * area: the snake, the food, the score and the frame count. Food is placed
 * at random on the 10-unit grid; the random draws are a parameter, and the
 * first draw that is neither the head nor a body segment is taken.
 */
module SnakeGameCore {
  import opened Geometry
  import opened SnakeGameObject

  datatype GameStatus = GAME_OVER | GAME_ALIVE

  const AREA := Rect(0, 0, 300, 300)

  /** The food may go to a cell the snake does not occupy. */
  predicate FreeCell(p: Point, s: SnakeState) {
    p != s.head && p !in s.body
  }

  predicate HasFreeDraw(draws: seq<Point>, s: SnakeState) {
    exists i :: 0 <= i < |draws| && FreeCell(draws[i], s)
  }

  /** `_random_food_pos`: the first draw off the snake, every earlier draw rejected. */
  function FirstFree(draws: seq<Point>, s: SnakeState): (p: Point)
    requires HasFreeDraw(draws, s)
    ensures FreeCell(p, s)
    ensures exists i :: 0 <= i < |draws| && draws[i] == p && forall j :: 0 <= j < i ==> !FreeCell(draws[j], s)
  {
    if FreeCell(draws[0], s) then draws[0]
    else
      assert HasFreeDraw(draws[1..], s) by {
        var i :| 0 <= i < |draws| && FreeCell(draws[i], s);
        assert draws[1..][i - 1] == draws[i];
      }
      var p := FirstFree(draws[1..], s);
      var i :| 0 <= i < |draws[1..]| && draws[1..][i] == p && forall j :: 0 <= j < i ==> !FreeCell(draws[1..][j], s);
      assert draws[i + 1] == p;
      assert forall j :: 1 <= j < i + 1 ==> draws[j] == draws[1..][j - 1];
      p
  }

  /** The information handed to the players for one frame. */
  datatype SceneInfo = SceneInfo(frame: int, status: GameStatus, snakeHead: Point, snakeBody: seq<Point>, food: Point)

  /** `Scene`: the snake, the food, the score, the frame count and the status. */
  class Scene {
    var snake: Snake
    var food: Point
    var score: int
    var frame: int
    var status: GameStatus

    /** The snake keeps its shape and the food is never on it. */
    ghost predicate Valid()
      reads this, snake
    {
      snake.Valid() && FreeCell(food, snake.State())
    }

    /** The scene of a new game: a new snake, food off it, score and frame 0, alive. */
    constructor(draws: seq<Point>)
      requires HasFreeDraw(draws, INITIAL_SNAKE)
      ensures Valid() && fresh(snake) && snake.State() == INITIAL_SNAKE
      ensures food == FirstFree(draws, INITIAL_SNAKE)
      ensures score == 0 && frame == 0 && status == GAME_ALIVE
    {
      snake := new Snake();
      food := Point(0, 0);
      score, frame, status := 0, 0, GAME_ALIVE;
      new;
      RandomFoodPos(draws);
    }

    /** `_random_food_pos`: the draws are tried in order until one is off the snake. */
    method RandomFoodPos(draws: seq<Point>)
      requires snake.Valid() && HasFreeDraw(draws, snake.State())
      modifies this
      ensures snake == old(snake) && food == FirstFree(draws, old(snake.State()))
      ensures snake == old(snake) && score == old(score) && frame == old(frame) && status == old(status)
    {
      var i := 0;
      while true
        invariant 0 <= i < |draws| && HasFreeDraw(draws[i..], snake.State())
        invariant FirstFree(draws[i..], snake.State()) == FirstFree(draws, snake.State())
        invariant snake == old(snake) && score == old(score) && frame == old(frame) && status == old(status)
        decreases |draws| - i
      {
        var candidate := draws[i];
        var onBody := snake.IsBodyPos(candidate);
        if candidate != snake.head && !onBody {
          food := candidate;
          return;
        }
        assert draws[i..][1..] == draws[i + 1..];
        i := i + 1;
      }
    }

    /** `reset`: score and frame 0, alive, a new snake and food off it. */
    method Reset(draws: seq<Point>)
      requires HasFreeDraw(draws, INITIAL_SNAKE)
      modifies this
      ensures Valid() && fresh(snake) && snake.State() == INITIAL_SNAKE
      ensures food == FirstFree(draws, INITIAL_SNAKE)
      ensures score == 0 && frame == 0 && status == GAME_ALIVE
    {
      score, frame, status := 0, 0, GAME_ALIVE;
      snake := new Snake();
      RandomFoodPos(draws);
    }

    /**
     * `update`: one more frame; the snake moves; landing on the food scores
     * one, places new food and grows the snake; leaving the area or hitting
     * the body ends the game, and nothing brings it back to life.
     */
    method Update(a: SnakeAction, draws: seq<Point>) returns (result: GameStatus)
      requires Valid()
      requires Moved(snake.State(), a).head == food ==> HasFreeDraw(draws, Moved(snake.State(), a))
      modifies this, snake
      ensures Valid() && snake == old(snake) && frame == old(frame) + 1
      ensures Moved(old(snake.State()), a).head != old(food) ==>
        score == old(score) && food == old(food) && snake.State() == Moved(old(snake.State()), a)
      ensures Moved(old(snake.State()), a).head == old(food) ==>
        score == old(score) + 1
        && food == FirstFree(draws, Moved(old(snake.State()), a))
        && snake.State() == Grown(Moved(old(snake.State()), a))
      ensures status == GAME_OVER <==>
        old(status) == GAME_OVER || !AREA.CollidePoint(snake.head) || snake.head in snake.body
      ensures result == status
    {
      frame := frame + 1;
      snake.Move(a);
      if snake.head == food {
        score := score + 1;
        RandomFoodPos(draws);
        var segment := snake.Grow();
      }
      var onBody := snake.IsBodyPos(snake.head);
      if !AREA.CollidePoint(snake.head) || onBody {
        status := GAME_OVER;
      }
      result := status;
    }

    /** `get_scene_info`: the frame, the status, the head, the body from the head side to the tail, and the food. */
    method GetSceneInfo() returns (info: SceneInfo)
      ensures info == SceneInfo(frame, status, snake.head, snake.body, food)
    {
      var bodyPositions := [];
      for i := 0 to |snake.body|
        invariant bodyPositions == snake.body[..i]
      {
        bodyPositions := bodyPositions + [snake.body[i]];
      }
      assert snake.body[..|snake.body|] == snake.body;
      info := SceneInfo(frame, status, snake.head, bodyPositions, food);
    }
  }
}
