/** Small shared vocabulary: optional values, results, and the few real-number helpers the
    services take from their decimal library. */
module Prelude {

  datatype Option<+T> = None | Some(value: T) {
    function GetOr(default: T): T {
      match this
      case Some(v) => v
      case None => default
    }
  }

  datatype Result<+T, +E> = Ok(value: T) | Err(error: E)

  lemma Member<T>(s: set<T>) returns (x: T)
    requires s != {}
    ensures x in s
  {
    x :| x in s;
  }

  lemma SameSet<T>(all: set<T>, part: set<T>)
    requires part <= all
    ensures all - part == {} ==> part == all
  {
    if all - part == {} {
      forall x | x in all ensures x in part {
        assert x in part || x in all - part;
      }
    }
  }

  lemma Missing<T>(all: set<T>, part: set<T>) returns (x: T)
    requires part <= all && part != all
    ensures x in all && x !in part && all - (part + {x}) == (all - part) - {x}
  {
    SameSet(all, part);
    x :| x in all - part;
  }

  function Min(a: real, b: real): real {
    if a <= b then a else b
  }

  function Max(a: real, b: real): real {
    if a >= b then a else b
  }

  function Abs(a: real): real {
    if a >= 0.0 then a else -a
  }

  /** A decimal shown with four places, halves away from zero. */
  function ToFixed4(x: real): real {
    if x >= 0.0 then (x * 10000.0 + 0.5).Floor as real / 10000.0 else -((0.5 - x * 10000.0).Floor as real / 10000.0)
  }
}

/** Sums of a real-valued term over the rows of a table. A table is a finite map, so the sum is
    defined by taking rows out in any order; SumTakeOut shows the order does not matter. */
module Sums {

  ghost function Sum<K(!new), V(!new)>(rows: map<K, V>, term: (K, V) -> real): real
    decreases |rows|
  {
    if rows == map[] then 0.0
    else
      var k :| k in rows;
      term(k, rows[k]) + Sum(rows - {k}, term)
  }

  lemma {:induction false} SumTakeOut<K(!new), V(!new)>(rows: map<K, V>, key: K, term: (K, V) -> real)
    requires key in rows
    ensures Sum(rows, term) == term(key, rows[key]) + Sum(rows - {key}, term)
    decreases |rows|
  {
    var k :| k in rows && Sum(rows, term) == term(k, rows[k]) + Sum(rows - {k}, term);
    if k != key {
      SumTakeOut(rows - {k}, key, term);
      SumTakeOut(rows - {key}, k, term);
      assert rows - {k} - {key} == rows - {key} - {k};
    }
  }

  /** Writing one row changes the sum by the difference of that row's term. */
  lemma SumWrite<K(!new), V(!new)>(rows: map<K, V>, key: K, row: V, term: (K, V) -> real)
    ensures Sum(rows[key := row], term)
         == Sum(rows, term) - (if key in rows then term(key, rows[key]) else 0.0) + term(key, row)
  {
    var written := rows[key := row];
    SumTakeOut(written, key, term);
    if key in rows {
      SumTakeOut(rows, key, term);
      assert written - {key} == rows - {key};
    } else {
      assert written - {key} == rows;
    }
  }

  lemma {:induction false} SumOfNonNegatives<K(!new), V(!new)>(rows: map<K, V>, term: (K, V) -> real)
    requires forall k | k in rows :: term(k, rows[k]) >= 0.0
    ensures Sum(rows, term) >= 0.0
    ensures forall k | k in rows :: term(k, rows[k]) <= Sum(rows, term)
    decreases |rows|
  {
    if rows != map[] {
      forall k | k in rows ensures 0.0 <= term(k, rows[k]) <= Sum(rows, term) {
        SumTakeOut(rows, k, term);
        SumOfNonNegatives(rows - {k}, term);
      }
      var k :| k in rows;
      assert term(k, rows[k]) <= Sum(rows, term);
    }
  }

  lemma {:induction false} SumOfZeros<K(!new), V(!new)>(rows: map<K, V>, term: (K, V) -> real)
    requires forall k | k in rows :: term(k, rows[k]) == 0.0
    ensures Sum(rows, term) == 0.0
    decreases |rows|
  {
    if rows != map[] {
      var k :| k in rows;
      SumTakeOut(rows, k, term);
      SumOfZeros(rows - {k}, term);
    }
  }

  /** A term that is the sum of two others row by row sums to the sum of their sums. */
  lemma {:induction false} SumSplit<K(!new), V(!new)>(
      rows: map<K, V>, f: (K, V) -> real, g: (K, V) -> real, h: (K, V) -> real)
    requires forall k | k in rows :: f(k, rows[k]) == g(k, rows[k]) + h(k, rows[k])
    ensures Sum(rows, f) == Sum(rows, g) + Sum(rows, h)
    decreases |rows|
  {
    if rows != map[] {
      var k :| k in rows;
      SumTakeOut(rows, k, f);
      SumTakeOut(rows, k, g);
      SumTakeOut(rows, k, h);
      SumSplit(rows - {k}, f, g, h);
    }
  }

  /** Two terms that agree on the common rows have the same sum when the rows only the second table
      has count for nothing. */
  lemma {:induction false} SumAgree<K(!new), V(!new)>(
      rows: map<K, V>, rows': map<K, V>, f: (K, V) -> real, g: (K, V) -> real)
    requires rows.Keys <= rows'.Keys
    requires forall k | k in rows :: f(k, rows[k]) == g(k, rows'[k])
    requires forall k | k in rows' && k !in rows :: g(k, rows'[k]) == 0.0
    ensures Sum(rows, f) == Sum(rows', g)
    decreases |rows'|
  {
    if rows' == map[] {
      assert rows == map[];
    } else {
      var k :| k in rows';
      SumTakeOut(rows', k, g);
      if k in rows {
        SumTakeOut(rows, k, f);
        SumAgree(rows - {k}, rows' - {k}, f, g);
      } else {
        SumAgree(rows, rows' - {k}, f, g);
      }
    }
  }
}
