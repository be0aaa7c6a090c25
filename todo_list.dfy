/**
 * The todo list CLI: a `ListaTareas` whose pointer-receiver methods append
 * to, write into and splice its `tareas` slice.  The menu passes the index it
 * reads straight through, so the three index operations demand a valid index
 * (Go panics otherwise).
 */
module TodoList {
  import opened GoSlices

  datatype Tarea = Tarea(nombre: string, desc: string, completado: bool)

  /** The slice with the task at `i` marked as completed. */
  function Marcada(ts: seq<Tarea>, i: nat): (r: seq<Tarea>)
    requires i < |ts|
    ensures |r| == |ts| && r[i].completado
    ensures r[i].nombre == ts[i].nombre && r[i].desc == ts[i].desc
    ensures forall k :: 0 <= k < |ts| && k != i ==> r[k] == ts[k]
  {
    ts[i := ts[i].(completado := true)]
  }

  /** Marking a task twice is the same as marking it once. */
  lemma MarcadaIdempotente(ts: seq<Tarea>, i: nat)
    requires i < |ts|
    ensures Marcada(Marcada(ts, i), i) == Marcada(ts, i)
  {
  }

  /** The task the menu builds from the two lines it reads: never completed. */
  function TareaLeida(nombre: string, desc: string): (t: Tarea)
    ensures t.nombre == nombre && t.desc == desc && !t.completado
  {
    Tarea(nombre, desc, false)
  }

  class ListaTareas {
    var tareas: seq<Tarea>

    /** `ListaTareas{}`: an empty list. */
    constructor ()
      ensures tareas == []
    {
      tareas := [];
    }

    method AgregarTarea(t: Tarea)
      modifies this
      ensures tareas == old(tareas) + [t]
    {
      tareas := tareas + [t];
    }

    method MarcarCompletado(index: int)
      requires 0 <= index < |tareas|
      modifies this
      ensures tareas == Marcada(old(tareas), index)
    {
      tareas := tareas[index := tareas[index].(completado := true)];
    }

    method EditarTarea(index: int, t: Tarea)
      requires 0 <= index < |tareas|
      modifies this
      ensures |tareas| == |old(tareas)| && tareas[index] == t
      ensures forall k :: 0 <= k < |tareas| && k != index ==> tareas[k] == old(tareas[k])
    {
      tareas := tareas[index := t];
    }

    method EliminarTarea(index: int)
      requires 0 <= index < |tareas|
      modifies this
      ensures tareas == Quitar(old(tareas), index)
    {
      tareas := tareas[..index] + tareas[index + 1..];
    }

    /** Menu option 3: an edited task comes back with the new texts and not completed. */
    method EditarDesdeMenu(index: int, nombre: string, desc: string)
      requires 0 <= index < |tareas|
      modifies this
      ensures |tareas| == |old(tareas)|
      ensures tareas[index] == Tarea(nombre, desc, false)
      ensures forall k :: 0 <= k < |tareas| && k != index ==> tareas[k] == old(tareas[k])
    {
      var t := TareaLeida(nombre, desc);
      EditarTarea(index, t);
    }
  }
}
