/** The backend of Back/server.js. The JSON document the routes read and
    write is a `Database` object holding the two collections `usuarios` and
    `tarefas`; each route handler is a member of it that returns the status
    code and the body it would send. The identifier taken from `Date.now()`
    and the integer obtained with `parseInt` from a path parameter are
    parameters. */
module Server {
  import opened Sequences

  datatype User = User(id: int, nome: string, email: string, senha: string)

  datatype Task = Task(id: int, usuarioId: int, titulo: string, descricao: string,
                       dataVencimento: string, finalizada: bool)

  /** JSON bodies the handlers answer with. */
  datatype Body =
    | Message(message: string)
    | UserBody(message: string, usuario: User)
    | TaskBody(message: string, tarefa: Task)
    | TaskList(tarefas: seq<Task>)

  datatype Response = Response(status: nat, body: Body)

  // The callbacks handed to `find`, `findIndex` and `filter`.

  function EmailIs(email: string): User -> bool { (u: User) => u.email == email }

  function HasCredentials(email: string, senha: string): User -> bool {
    (u: User) => u.email == email && u.senha == senha
  }

  function OwnedBy(usuarioId: int): Task -> bool { (t: Task) => t.usuarioId == usuarioId }

  function HasId(id: int): Task -> bool { (t: Task) => t.id == id }

  function NotId(id: int): Task -> bool { (t: Task) => t.id != id }

  /** No two users share an email. Registration keeps this; it is the only
      place where users are added. */
  predicate EmailsUnique(usuarios: seq<User>) {
    forall i, j :: 0 <= i < j < |usuarios| ==> usuarios[i].email != usuarios[j].email
  }

  /** Object spread `{ ...t, titulo, descricao, dataVencimento, finalizada }`. */
  function Overwrite(t: Task, titulo: string, descricao: string, dataVencimento: string,
                     finalizada: bool): (r: Task)
    ensures r.id == t.id && r.usuarioId == t.usuarioId
    ensures r.titulo == titulo && r.descricao == descricao
    ensures r.dataVencimento == dataVencimento && r.finalizada == finalizada
  {
    t.(titulo := titulo, descricao := descricao, dataVencimento := dataVencimento,
       finalizada := finalizada)
  }

  /** Appending a user whose email nobody holds keeps emails unique. */
  lemma {:induction false} AppendKeepsEmailsUnique(usuarios: seq<User>, u: User)
    requires EmailsUnique(usuarios)
    requires FindIndex(usuarios, EmailIs(u.email)) == -1
    ensures EmailsUnique(usuarios + [u])
  {
    var s := usuarios + [u];
    forall i, j | 0 <= i < j < |s| ensures s[i].email != s[j].email {
      if j == |usuarios| {
        assert s[i] == usuarios[i];
        assert !EmailIs(u.email)(usuarios[i]);
      } else {
        assert s[i] == usuarios[i] && s[j] == usuarios[j];
      }
    }
  }

  /** A user just registered can log in with the same email and password:
      because their email was free, the first user with those credentials
      is the one appended. */
  lemma RegisteredUserLogsIn(usuarios: seq<User>, u: User)
    requires FindIndex(usuarios, EmailIs(u.email)) == -1
    ensures FindIndex(usuarios + [u], HasCredentials(u.email, u.senha)) == |usuarios|
  {
    assert forall i :: 0 <= i < |usuarios| ==> !EmailIs(u.email)(usuarios[i]);
    FindIndexAppendFirst(usuarios, u, HasCredentials(u.email, u.senha));
  }

  /** A task created for an owner is listed for that owner, after the tasks
      they already had. */
  lemma CreatedTaskIsListed(tarefas: seq<Task>, t: Task)
    ensures Filter(tarefas + [t], OwnedBy(t.usuarioId)) == Filter(tarefas, OwnedBy(t.usuarioId)) + [t]
  {
    FilterAppend(tarefas, [t], OwnedBy(t.usuarioId));
  }

  /** After deleting an id no task with that id is left, so deleting it
      again removes nothing (and answers 404). */
  lemma DeleteTwiceRemovesNothing(tarefas: seq<Task>, id: int)
    ensures var once := Filter(tarefas, NotId(id));
            Filter(once, NotId(id)) == once
  {
    FilterIdempotent(tarefas, NotId(id));
  }

  class Database {
    var usuarios: seq<User>
    var tarefas: seq<Task>

    /** The document as read from the backing file. */
    constructor (usuarios: seq<User>, tarefas: seq<Task>)
      ensures this.usuarios == usuarios && this.tarefas == tarefas
    {
      this.usuarios := usuarios;
      this.tarefas := tarefas;
    }

    /** POST /api/novo-usuario */
    method Register(nome: string, email: string, senha: string, novoId: int)
      returns (res: Response)
      modifies this
      ensures tarefas == old(tarefas)
      ensures FindIndex(old(usuarios), EmailIs(email)) != -1 ==>
                res == Response(409, Message("Email já cadastrado."))
                && usuarios == old(usuarios)
      ensures FindIndex(old(usuarios), EmailIs(email)) == -1 ==>
                res == Response(201, UserBody("Conta criada com sucesso!", User(novoId, nome, email, senha)))
                && usuarios == old(usuarios) + [User(novoId, nome, email, senha)]
      ensures EmailsUnique(old(usuarios)) ==> EmailsUnique(usuarios)
    {
      if FindIndex(usuarios, EmailIs(email)) != -1 {
        return Response(409, Message("Email já cadastrado."));
      }
      var novoUsuario := User(novoId, nome, email, senha);
      if EmailsUnique(usuarios) {
        AppendKeepsEmailsUnique(usuarios, novoUsuario);
      }
      usuarios := usuarios + [novoUsuario];
      res := Response(201, UserBody("Conta criada com sucesso!", novoUsuario));
    }

    /** POST /api/login: the first user whose email and password both match,
        with 200, or 401. */
    function Login(email: string, senha: string): (r: Response)
      reads this
      ensures r.status == 200 || r.status == 401
      ensures r.status == 401 <==>
                forall i :: 0 <= i < |usuarios| ==> !(usuarios[i].email == email && usuarios[i].senha == senha)
      ensures r.status == 401 ==> r.body == Message("Credenciais inválidas.")
      ensures r.status == 200 ==>
                exists k :: 0 <= k < |usuarios|
                  && usuarios[k].email == email && usuarios[k].senha == senha
                  && (forall j :: 0 <= j < k ==> !(usuarios[j].email == email && usuarios[j].senha == senha))
                  && r.body == UserBody("Login bem-sucedido!", usuarios[k])
    {
      var k := FindIndex(usuarios, HasCredentials(email, senha));
      if k == -1 then Response(401, Message("Credenciais inválidas."))
      else Response(200, UserBody("Login bem-sucedido!", usuarios[k]))
    }

    /** GET /api/tarefas/:usuarioId: always 200, with the owner's tasks in
        stored order (possibly none). */
    function ListTasks(usuarioId: int): (r: Response)
      reads this
      ensures r.status == 200 && r.body.TaskList?
      ensures r.body.tarefas == Filter(tarefas, OwnedBy(usuarioId))
      ensures forall i :: 0 <= i < |r.body.tarefas| ==>
                r.body.tarefas[i] in tarefas && r.body.tarefas[i].usuarioId == usuarioId
      ensures forall i :: 0 <= i < |tarefas| && tarefas[i].usuarioId == usuarioId ==>
                tarefas[i] in r.body.tarefas
      ensures r.body.tarefas == [] <==>
                forall i :: 0 <= i < |tarefas| ==> tarefas[i].usuarioId != usuarioId
    {
      Response(200, TaskList(Filter(tarefas, OwnedBy(usuarioId))))
    }

    /** POST /api/tarefas */
    method CreateTask(usuarioId: int, titulo: string, descricao: string, dataVencimento: string,
                      novoId: int)
      returns (res: Response)
      modifies this
      ensures usuarios == old(usuarios)
      ensures tarefas == old(tarefas) + [Task(novoId, usuarioId, titulo, descricao, dataVencimento, false)]
      ensures res == Response(201, TaskBody("Tarefa criada com sucesso!",
                                            Task(novoId, usuarioId, titulo, descricao, dataVencimento, false)))
      ensures EmailsUnique(old(usuarios)) ==> EmailsUnique(usuarios)
    {
      var novaTarefa := Task(novoId, usuarioId, titulo, descricao, dataVencimento, false);
      tarefas := tarefas + [novaTarefa];
      res := Response(201, TaskBody("Tarefa criada com sucesso!", novaTarefa));
    }

    /** PUT /api/tarefas/:id: only the FIRST task with the id changes. */
    method UpdateTask(tarefaId: int, titulo: string, descricao: string, dataVencimento: string,
                      finalizada: bool)
      returns (res: Response)
      modifies this
      ensures usuarios == old(usuarios)
      ensures |tarefas| == |old(tarefas)|
      ensures FindIndex(old(tarefas), HasId(tarefaId)) == -1 ==>
                res == Response(404, Message("Tarefa não encontrada.")) && tarefas == old(tarefas)
      ensures FindIndex(old(tarefas), HasId(tarefaId)) != -1 ==>
                var k := FindIndex(old(tarefas), HasId(tarefaId));
                var t := old(tarefas)[k];
                var t' := Task(t.id, t.usuarioId, titulo, descricao, dataVencimento, finalizada);
                tarefas == old(tarefas)[k := t']
                && res == Response(200, TaskBody("Tarefa atualizada com sucesso!", t'))
      ensures EmailsUnique(old(usuarios)) ==> EmailsUnique(usuarios)
    {
      var k := FindIndex(tarefas, HasId(tarefaId));
      if k == -1 {
        return Response(404, Message("Tarefa não encontrada."));
      }
      tarefas := tarefas[k := Overwrite(tarefas[k], titulo, descricao, dataVencimento, finalizada)];
      res := Response(200, TaskBody("Tarefa atualizada com sucesso!", tarefas[k]));
    }

    /** DELETE /api/tarefas/:id: EVERY task with the id goes; 404 when the
        count did not change. */
    method DeleteTask(tarefaId: int) returns (res: Response)
      modifies this
      ensures usuarios == old(usuarios)
      ensures tarefas == Filter(old(tarefas), NotId(tarefaId))
      ensures res.status == 404 <==> |tarefas| == |old(tarefas)|
      ensures res.status == 404 <==> forall i :: 0 <= i < |old(tarefas)| ==> old(tarefas)[i].id != tarefaId
      ensures res.status == 404 ==> res == Response(404, Message("Tarefa não encontrada.")) && tarefas == old(tarefas)
      ensures res.status != 404 ==> res == Response(200, Message("Tarefa removida com sucesso!"))
      ensures EmailsUnique(old(usuarios)) ==> EmailsUnique(usuarios)
    {
      var contadorTarefas := |tarefas|;
      FilterKeepsAll(tarefas, NotId(tarefaId));
      tarefas := Filter(tarefas, NotId(tarefaId));
      if |tarefas| == contadorTarefas {
        return Response(404, Message("Tarefa não encontrada."));
      }
      res := Response(200, Message("Tarefa removida com sucesso!"));
    }
  }
}
